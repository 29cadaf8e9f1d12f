/** What every run of the outbox keeps (server/internal/delivery/facade.go). */
module OutboxRuns {
  import opened Common
  import opened Outbox
  import RetrySchedule

  datatype Action =
    | Enqueues(org: string, kind: string, data: string, saves: nat)
    | SendsTest(org: string)
    | Redelivers(org: string, id: nat)
    | Dispatches(id: nat, attempt: Attempt)
    | Purges(retention: seq<(string, int)>)
    | Creates(org: string, url: string, urlValid: bool, kinds: Option<seq<string>>)
    | Sets(org: string, url: string, urlValid: bool)
    | Updates(org: string, id: nat, url: string, urlValid: bool, kinds: Option<seq<string>>)
    | Deletes(org: string, id: nat)
    | Enables(org: string, id: nat)
    | Disables(org: string, id: nat)

  datatype Step = Step(elapsed: nat, action: Action)

  function Act(cfg: Config, st: State, action: Action): State {
    match action
    case Enqueues(org, kind, data, saves) => Enqueue(st, org, kind, data, saves)
    case SendsTest(org) => SendTest(st, org)
    case Redelivers(org, id) => Redeliver(st, org, id)
    case Dispatches(id, attempt) => Dispatch(cfg, st, id, attempt)
    case Purges(retention) => Purge(st, retention, |retention|)
    case Creates(org, url, urlValid, kinds) => CreateEndpoint(cfg, st, org, url, urlValid, kinds)
    case Sets(org, url, urlValid) => SetEndpoint(st, org, url, urlValid)
    case Updates(org, id, url, urlValid, kinds) => UpdateEndpoint(st, org, id, url, urlValid, kinds)
    case Deletes(org, id) => DeleteEndpoint(st, org, id)
    case Enables(org, id) => EnableEndpoint(st, org, id)
    case Disables(org, id) => DisableEndpoint(st, org, id)
  }

  function Elapse(st: State, d: nat): State { st.(clock := st.clock + d) }

  function After(cfg: Config, clock: int, steps: seq<Step>, n: nat): State
    requires n <= |steps|
  {
    if n == 0 then Empty(clock)
    else Act(cfg, Elapse(After(cfg, clock, steps, n - 1), steps[n - 1].elapsed), steps[n - 1].action)
  }

  // ---- Counting in the journal ----

  /** Attempts at an event, made and not made durable. */
  function Lost(j: Journal, id: nat): nat {
    if j.Start? then 0
    else Lost(j.past, id) + (if j.last.Attempted? && j.last.event == id && j.last.writes == 0 then 1 else 0)
  }

  function Made(j: Journal, id: nat): nat {
    if j.Start? then 0 else Made(j.past, id) + (if j.last.Attempted? && j.last.event == id then 1 else 0)
  }

  function Redeliveries(j: Journal, id: nat): nat {
    if j.Start? then 0 else Redeliveries(j.past, id) + (if j.last == Redelivered(id) then 1 else 0)
  }

  /** When the first recorded attempt at an event ended. */
  function FirstAttemptAt(j: Journal, id: nat): Option<int> {
    if j.Start? then None
    else if FirstAttemptAt(j.past, id).Some? then FirstAttemptAt(j.past, id)
    else if j.last.Attempted? && j.last.event == id && j.last.writes > 0 then Some(j.last.at)
    else None
  }

  /** Attempts that ended in FAILED for good at an endpoint since the last that was delivered, its creation or its
      latest enabling. */
  function FailedSince(j: Journal, endpoint: nat): nat {
    if j.Start? then 0
    else
      match j.last
      case Attempted(_, e, _, _, outcome, writes) =>
        if e != endpoint || writes < 2 then FailedSince(j.past, endpoint)
        else if outcome == Failed then FailedSince(j.past, endpoint) + 1
        else if outcome == Delivered then 0
        else FailedSince(j.past, endpoint)
      case Renewed(e) => if e == endpoint then 0 else FailedSince(j.past, endpoint)
      case Redelivered(_) => FailedSince(j.past, endpoint)
  }

  // ---- One event's lifecycle ----

  /** What concerns one event: its row, and what the journal says about it. */
  datatype Track = Track(event: Option<Event>, made: nat, lost: nat, redeliveries: nat, first: Option<int>)

  const BLANK := Track(None, 0, 0, 0, None)

  function View(st: State, id: nat): Track {
    Track(if id in st.events then Some(st.events[id]) else None,
          Made(st.journal, id), Lost(st.journal, id), Redeliveries(st.journal, id), FirstAttemptAt(st.journal, id))
  }

  datatype Change =
    | Same
    | Born(event: Event)
    | Tried(response: Option<int>, now: int, jitter: real)
    | TriedInVain
    | Requeued(now: int)
    | Purged

  predicate Legal(id: nat, t: Track, c: Change) {
    match c
    case Same => true
    case Born(e) =>
      && t == BLANK && e.id == id && e.attempts == 0 && (e.status == Pending || e.status == NoEndpoint)
      && (e.status == Pending <==> e.endpoint.Some?) && e.body == Envelope(id, e.kind, e.createdAt, e.body.data)
    case Tried(_, now, _) => t.event.Some? && t.event.value.status == Pending && t.event.value.nextAttemptAt <= now
    case TriedInVain => t.event.Some? && t.event.value.status == Pending
    case Requeued(_) => t.event.Some?
    case Purged => t.event.Some? && Terminal(t.event.value.status)
  }

  function Changed(id: nat, t: Track, c: Change): Track
    requires Legal(id, t, c)
  {
    match c
    case Same => t
    case Born(e) => t.(event := Some(e))
    case Tried(response, now, jitter) =>
      t.(event := Some(AttemptOutcome(t.event.value, response, now, jitter)), made := t.made + 1,
         first := if t.first.Some? then t.first else Some(now))
    case TriedInVain => t.(made := t.made + 1, lost := t.lost + 1)
    case Requeued(now) =>
      t.(event := Some(t.event.value.(status := Pending, nextAttemptAt := now)), redeliveries := t.redeliveries + 1)
    case Purged => t.(event := None)
  }

  /** What an action does to one event. */
  function ChangeOf(cfg: Config, st: State, action: Action, id: nat): Change {
    match action
    case Dispatches(i, a) =>
      if i != id || !Due(st, id) || Target(st, st.events[id]).None? then Same
      else if a.writes == 0 then TriedInVain
      else Tried(a.response, st.clock + a.took, a.jitter)
    case Redelivers(org, i) =>
      if i == id && id in st.events && st.events[id].org == org then Requeued(st.clock) else Same
    case _ =>
      var after := Act(cfg, st, action);
      if id !in st.events && id in after.events then Born(after.events[id])
      else if id in st.events && id !in after.events then Purged
      else Same
  }

  /** Ids not yet given out have left no trace. */
  ghost predicate Tidy(st: State) {
    forall id: nat :: id >= st.nextEvent ==> View(st, id) == BLANK
  }

  lemma StoredIdIsUsed(st: State, id: nat)
    requires Tidy(st) && id in st.events
    ensures id < st.nextEvent
  {
    assert id >= st.nextEvent ==> View(st, id) == BLANK;
  }

  ghost predicate IsStep(cfg: Config, st: State, action: Action, id: nat) {
    var c := ChangeOf(cfg, st, action, id);
    Legal(id, View(st, id), c) && View(Act(cfg, st, action), id) == Changed(id, View(st, id), c)
  }

  lemma {:induction false} FanOutEffect(st: State, targets: seq<Endpoint>, kind: string, data: string, n: nat)
    requires n <= |targets|
    ensures var after := FanOut(st, targets, kind, data, n);
            && after == st.(events := after.events, nextEvent := st.nextEvent + n)
            && (forall id: nat :: id < st.nextEvent || id >= st.nextEvent + n ==>
                  (id in after.events <==> id in st.events) && (id in st.events ==> after.events[id] == st.events[id]))
  {
    hide NewEvent;
    if n > 0 {
      FanOutEffect(st, targets, kind, data, n - 1);
    }
  }

  lemma {:induction false} FanOutCreates(st: State, targets: seq<Endpoint>, kind: string, data: string, n: nat, k: nat)
    requires k < n <= |targets|
    ensures var after, id := FanOut(st, targets, kind, data, n), st.nextEvent + k;
            && id in after.events
            && after.events[id] == NewEvent(id, targets[k].org, Some(targets[k].id), kind, data, st.clock)
  {
    hide NewEvent;
    FanOutEffect(st, targets, kind, data, n - 1);
    if k < n - 1 {
      FanOutCreates(st, targets, kind, data, n - 1, k);
    }
  }

  lemma EnqueueIsStep(cfg: Config, st: State, action: Action, id: nat)
    requires Tidy(st) && (action.Enqueues? || action.SendsTest?)
    ensures IsStep(cfg, st, action, id)
    ensures Tidy(Act(cfg, st, action))
  {
    hide Matching, FirstEndpoint;
    if action.Enqueues? {
      var targets := Matching(st, action.org, action.kind);
      var n := Least(action.saves, |targets|);
      FanOutEffect(st, targets, action.kind, action.data, n);
      hide FanOut;
      if targets != [] && st.nextEvent <= id < st.nextEvent + n {
        assert View(st, id) == BLANK;
        FanOutCreates(st, targets, action.kind, action.data, n, id - st.nextEvent);
      } else {
        assert id >= st.nextEvent ==> View(st, id) == BLANK;
      }
      TidyAfterAdding(st, Act(cfg, st, action));
    } else {
      assert id >= st.nextEvent ==> View(st, id) == BLANK;
      TidyAfterAdding(st, Act(cfg, st, action));
    }
  }

  lemma TidyAfterAdding(st: State, after: State)
    requires Tidy(st) && after.journal == st.journal && after.nextEvent >= st.nextEvent
    requires forall id: nat :: id >= after.nextEvent ==> (id in after.events <==> id in st.events)
    ensures Tidy(after)
  {
    forall id: nat | id >= after.nextEvent ensures View(after, id) == BLANK {
      assert View(st, id) == BLANK;
    }
  }

  lemma {:induction false} PurgeEffect(st: State, retention: seq<(string, int)>, n: nat)
    requires n <= |retention|
    ensures var after := Purge(st, retention, n);
            && after == st.(events := after.events)
            && (forall id :: id in after.events ==> id in st.events && after.events[id] == st.events[id])
            && (forall id :: id in st.events && !Terminal(st.events[id].status) ==> id in after.events)
  {
    if n > 0 {
      PurgeEffect(st, retention, n - 1);
    }
  }

  /** An event goes in a purge exactly when it is terminal and older than its organization's window. */
  lemma {:induction false} PurgedIff(st: State, retention: seq<(string, int)>, n: nat, id: nat)
    requires n <= |retention| && id in st.events
    ensures id !in Purge(st, retention, n).events <==>
            st.events[id].status in {Delivered, Failed, NoEndpoint}
            && exists i :: 0 <= i < n && retention[i].0 == st.events[id].org && retention[i].1 > 0
                           && st.events[id].createdAt < st.clock - retention[i].1 * 86_400_000_000_000
  {
    if n > 0 {
      PurgedIff(st, retention, n - 1, id);
      PurgeEffect(st, retention, n - 1);
      assert retention[n - 1] == (retention[n - 1].0, retention[n - 1].1);
    }
  }

  lemma DispatchIsStep(cfg: Config, st: State, i: nat, a: Attempt, id: nat)
    ensures IsStep(cfg, st, Dispatches(i, a), id)
  {
    hide Target, AttemptOutcome, Booked;
  }

  lemma DispatchKeepsTidy(cfg: Config, st: State, i: nat, a: Attempt)
    requires Tidy(st)
    ensures Tidy(Act(cfg, st, Dispatches(i, a)))
  {
    hide Target, AttemptOutcome, Booked;
    if Due(st, i) {
      StoredIdIsUsed(st, i);
    }
    var after := Act(cfg, st, Dispatches(i, a));
    forall id: nat | id >= after.nextEvent ensures View(after, id) == BLANK {
      assert View(st, id) == BLANK;
    }
  }

  lemma RedeliverIsStep(cfg: Config, st: State, org: string, i: nat, id: nat)
    requires Tidy(st)
    ensures IsStep(cfg, st, Redelivers(org, i), id)
    ensures Tidy(Act(cfg, st, Redelivers(org, i)))
  {
    var after := Act(cfg, st, Redelivers(org, i));
    if i in st.events {
      StoredIdIsUsed(st, i);
    }
    forall k: nat | k >= after.nextEvent ensures View(after, k) == BLANK {
      assert View(st, k) == BLANK;
    }
  }

  lemma EndpointActionIsStep(cfg: Config, st: State, action: Action, id: nat)
    requires Tidy(st)
    requires action.Creates? || action.Sets? || action.Updates? || action.Deletes?
               || action.Enables? || action.Disables?
    ensures IsStep(cfg, st, action, id) && Tidy(Act(cfg, st, action))
  {
    hide FirstEndpoint, ListEndpoints, ValidFilter;
    var after := Act(cfg, st, action);
    forall k: nat ensures View(after, k) == View(st, k) {
    }
  }

  /** Every action, seen from one event, is a legal step of that event's lifecycle. */
  lemma ActIsStep(cfg: Config, st: State, action: Action, id: nat)
    requires Tidy(st)
    ensures IsStep(cfg, st, action, id) && Tidy(Act(cfg, st, action))
  {
    hide IsStep, Tidy, Act;
    match action {
      case Enqueues(_, _, _, _) => EnqueueIsStep(cfg, st, action, id);
      case SendsTest(_) => EnqueueIsStep(cfg, st, action, id);
      case Redelivers(org, i) => RedeliverIsStep(cfg, st, org, i, id);
      case Dispatches(i, a) =>
        DispatchIsStep(cfg, st, i, a, id);
        DispatchKeepsTidy(cfg, st, i, a);
      case Purges(retention) => PurgeIsStep(cfg, st, retention, id);
      case _ => EndpointActionIsStep(cfg, st, action, id);
    }
  }

  lemma PurgeIsStep(cfg: Config, st: State, retention: seq<(string, int)>, id: nat)
    requires Tidy(st)
    ensures IsStep(cfg, st, Purges(retention), id) && Tidy(Act(cfg, st, Purges(retention)))
  {
    PurgeEffect(st, retention, |retention|);
    hide Purge;
    var after := Act(cfg, st, Purges(retention));
    forall k: nat | k >= after.nextEvent ensures View(after, k) == BLANK {
      assert View(st, k) == BLANK;
    }
  }

  // ---- What each lifecycle keeps ----

  /** The counters of an event: attempts recorded, and the bound on them. */
  ghost predicate Counted(id: nat, t: Track) {
    && t.lost <= t.made
    && (t.event.Some? ==>
          var e := t.event.value;
          && e.id == id
          && e.attempts == t.made - t.lost
          && e.attempts <= RetrySchedule.MAX_ATTEMPTS + t.redeliveries
          && (e.status == Pending ==> e.attempts < RetrySchedule.MAX_ATTEMPTS + t.redeliveries)
          && (e.status == NoEndpoint ==> e.attempts == 0)
          && (e.attempts == 0 <==> t.first.None?))
  }

  lemma ChangeKeepsCounted(id: nat, t: Track, c: Change)
    requires Counted(id, t) && Legal(id, t, c)
    ensures Counted(id, Changed(id, t, c))
  {
  }

  /** The timing of an event never redelivered: its next attempt is as far from the first as the schedule asks. */
  ghost predicate OnSchedule(t: Track) {
    t.event.Some? && t.redeliveries == 0 && t.first.Some? ==>
      var e := t.event.value;
      && (e.status == Pending ==> e.nextAttemptAt >= t.first.value + RetrySchedule.WaitedAtLeast(e.attempts))
      && (e.status == Failed ==>
            && e.attempts == RetrySchedule.MAX_ATTEMPTS && e.lastAttemptAt.Some?
            && e.lastAttemptAt.value >= t.first.value + RetrySchedule.WaitedAtLeast(RetrySchedule.MAX_ATTEMPTS - 1))
  }

  predicate FairJitter(c: Change) { c.Tried? ==> 0.0 <= c.jitter < 1.0 }

  lemma ChangeKeepsSchedule(id: nat, t: Track, c: Change)
    requires Counted(id, t) && OnSchedule(t) && Legal(id, t, c) && FairJitter(c)
    ensures OnSchedule(Changed(id, t, c))
  {
    hide RetrySchedule.NextAttempt, RetrySchedule.TableDelay;
    if c.Tried? && t.redeliveries == 0 {
      var attempts := t.event.value.attempts + 1;
      RetrySchedule.NextAttemptWaits(c.now, attempts, c.jitter);
      assert t.first.None? ==> RetrySchedule.WaitedAtLeast(attempts - 1) == 0;
    }
  }

  // ---- Runs ----

  lemma {:induction false} RunIsTidy(cfg: Config, clock: int, steps: seq<Step>, n: nat)
    requires n <= |steps|
    ensures Tidy(After(cfg, clock, steps, n))
  {
    hide Act;
    if n > 0 {
      RunIsTidy(cfg, clock, steps, n - 1);
      var before := After(cfg, clock, steps, n - 1);
      ElapseKeepsViews(before, steps[n - 1].elapsed);
      ActIsStep(cfg, Elapse(before, steps[n - 1].elapsed), steps[n - 1].action, 0);
    }
  }

  lemma ElapseKeepsViews(st: State, d: nat)
    ensures Tidy(st) ==> Tidy(Elapse(st, d))
    ensures forall id: nat :: View(Elapse(st, d), id) == View(st, id)
  {
    forall id: nat ensures View(Elapse(st, d), id) == View(st, id) {
    }
  }

  /** The last step of a run, seen from one event. */
  lemma LastStep(cfg: Config, clock: int, steps: seq<Step>, n: nat, id: nat)
    requires 0 < n <= |steps|
    ensures var before, step := After(cfg, clock, steps, n - 1), steps[n - 1];
            var c := ChangeOf(cfg, Elapse(before, step.elapsed), step.action, id);
            && Legal(id, View(before, id), c)
            && View(After(cfg, clock, steps, n), id) == Changed(id, View(before, id), c)
  {
    var before, step := After(cfg, clock, steps, n - 1), steps[n - 1];
    RunIsTidy(cfg, clock, steps, n - 1);
    ElapseKeepsViews(before, step.elapsed);
    ActIsStep(cfg, Elapse(before, step.elapsed), step.action, id);
    hide Act, ChangeOf, Legal, Changed, View, Tidy;
  }

  lemma {:induction false} RunCounts(cfg: Config, clock: int, steps: seq<Step>, n: nat, id: nat)
    requires n <= |steps|
    ensures Counted(id, View(After(cfg, clock, steps, n), id))
  {
    if n > 0 {
      hide Act, ChangeOf, Legal, Changed, View, Counted;
      RunCounts(cfg, clock, steps, n - 1, id);
      LastStep(cfg, clock, steps, n, id);
      var before, step := After(cfg, clock, steps, n - 1), steps[n - 1];
      ChangeKeepsCounted(id, View(before, id), ChangeOf(cfg, Elapse(before, step.elapsed), step.action, id));
    }
  }

  /** In every run, an event's Attempts is the number of attempts made at it, less those the store failed to record,
      and at most ten plus its redeliveries; one that is still pending has had fewer. */
  lemma AttemptsAreCounted(cfg: Config, clock: int, steps: seq<Step>, n: nat, id: nat)
    requires n <= |steps| && id in After(cfg, clock, steps, n).events
    ensures var st := After(cfg, clock, steps, n);
            var e := st.events[id];
            && e.attempts == Made(st.journal, id) - Lost(st.journal, id)
            && e.attempts <= RetrySchedule.MAX_ATTEMPTS + Redeliveries(st.journal, id)
            && (e.status == Pending ==> e.attempts < RetrySchedule.MAX_ATTEMPTS + Redeliveries(st.journal, id))
            && (e.status == NoEndpoint ==> e.attempts == 0)
  {
    RunCounts(cfg, clock, steps, n, id);
  }

  predicate FairJitters(steps: seq<Step>) {
    forall i :: 0 <= i < |steps| && steps[i].action.Dispatches? ==> 0.0 <= steps[i].action.attempt.jitter < 1.0
  }

  lemma ChangeIsFair(cfg: Config, st: State, action: Action, id: nat)
    requires action.Dispatches? ==> 0.0 <= action.attempt.jitter < 1.0
    ensures FairJitter(ChangeOf(cfg, st, action, id))
  {
    hide Act, Target;
  }

  lemma StepIsOnSchedule(cfg: Config, clock: int, steps: seq<Step>, n: nat, id: nat)
    requires 0 < n <= |steps| && FairJitters(steps) && OnSchedule(View(After(cfg, clock, steps, n - 1), id))
    ensures OnSchedule(View(After(cfg, clock, steps, n), id))
  {
    hide Act, ChangeOf, Legal, Changed, View, Counted, OnSchedule, FairJitter, After;
    RunCounts(cfg, clock, steps, n - 1, id);
    LastStep(cfg, clock, steps, n, id);
    var before, step := After(cfg, clock, steps, n - 1), steps[n - 1];
    var st := Elapse(before, step.elapsed);
    ChangeIsFair(cfg, st, step.action, id);
    ChangeKeepsSchedule(id, View(before, id), ChangeOf(cfg, st, step.action, id));
  }

  lemma {:induction false} RunIsOnSchedule(cfg: Config, clock: int, steps: seq<Step>, n: nat, id: nat)
    requires n <= |steps| && FairJitters(steps)
    ensures OnSchedule(View(After(cfg, clock, steps, n), id))
  {
    hide Act;
    if n > 0 {
      RunIsOnSchedule(cfg, clock, steps, n - 1, id);
      StepIsOnSchedule(cfg, clock, steps, n, id);
    }
  }

  /** An event that reaches FAILED without a redelivery was attempted exactly ten times, and at least nine tenths of
      272105 seconds passed between its first and its last attempt. */
  lemma FailedTookTheWholeSchedule(cfg: Config, clock: int, steps: seq<Step>, n: nat, id: nat)
    requires n <= |steps| && FairJitters(steps)
    requires var st := After(cfg, clock, steps, n);
             id in st.events && st.events[id].status == Failed && Redeliveries(st.journal, id) == 0
    ensures var st := After(cfg, clock, steps, n);
            var first, last := FirstAttemptAt(st.journal, id), st.events[id].lastAttemptAt;
            && st.events[id].attempts == 10 && first.Some? && last.Some?
            && 10 * (last.value - first.value) >= 9 * 272105 * RetrySchedule.SECOND
  {
    RunIsOnSchedule(cfg, clock, steps, n, id);
    RunCounts(cfg, clock, steps, n, id);
    FailedIsNotNew(cfg, clock, steps, n, id);
    RetrySchedule.WholeScheduleWaits();
    hide After, RetrySchedule.WaitedAtLeast;
  }

  lemma {:induction false} FailedIsNotNew(cfg: Config, clock: int, steps: seq<Step>, n: nat, id: nat)
    requires n <= |steps| && id in After(cfg, clock, steps, n).events
    requires After(cfg, clock, steps, n).events[id].status == Failed
    ensures FirstAttemptAt(After(cfg, clock, steps, n).journal, id).Some?
  {
    if n > 0 {
      LastStep(cfg, clock, steps, n, id);
      var before, step := After(cfg, clock, steps, n - 1), steps[n - 1];
      hide Act, ChangeOf;
      if id in before.events && before.events[id].status == Failed {
        FailedIsNotNew(cfg, clock, steps, n - 1, id);
      }
    }
  }

  predicate SameIdentity(a: Event, b: Event) {
    a.id == b.id && a.org == b.org && a.endpoint == b.endpoint && a.kind == b.kind
      && a.body == b.body && a.createdAt == b.createdAt
  }

  lemma ChangeKeepsIdentity(id: nat, t: Track, c: Change)
    requires Legal(id, t, c) && t.event.Some?
    ensures var after := Changed(id, t, c); after.event.Some? ==> SameIdentity(t.event.value, after.event.value)
  {
  }

  lemma ActOnlyAddsIds(cfg: Config, st: State, action: Action)
    ensures Act(cfg, st, action).nextEvent >= st.nextEvent
  {
    hide Matching, FirstEndpoint, Target, AttemptOutcome, Booked, ValidFilter, ListEndpoints;
    match action {
      case Enqueues(org, kind, data, saves) =>
        var targets := Matching(st, org, kind);
        FanOutEffect(st, targets, kind, data, Least(saves, |targets|));
      case Purges(retention) => PurgeEffect(st, retention, |retention|);
      case _ =>
    }
  }

  lemma {:induction false} IdsOnlyGrow(cfg: Config, clock: int, steps: seq<Step>, m: nat, n: nat)
    requires m <= n <= |steps|
    ensures After(cfg, clock, steps, m).nextEvent <= After(cfg, clock, steps, n).nextEvent
  {
    hide Act;
    if m < n {
      IdsOnlyGrow(cfg, clock, steps, m, n - 1);
      ActOnlyAddsIds(cfg, Elapse(After(cfg, clock, steps, n - 1), steps[n - 1].elapsed), steps[n - 1].action);
    }
  }

  lemma BornIsNew(cfg: Config, st: State, action: Action, id: nat)
    requires Tidy(st) && id < st.nextEvent && id !in st.events
    ensures id !in Act(cfg, st, action).events
  {
    hide Matching, FirstEndpoint, Target, AttemptOutcome, Booked, ValidFilter, ListEndpoints, Tidy;
    match action {
      case Enqueues(org, kind, data, saves) =>
        var targets := Matching(st, org, kind);
        FanOutEffect(st, targets, kind, data, Least(saves, |targets|));
      case Purges(retention) => PurgeEffect(st, retention, |retention|);
      case _ =>
    }
  }

  /** An event with an id given out before a step was stored before it, and the step leaves its identity alone. */
  lemma StoredBefore(cfg: Config, clock: int, steps: seq<Step>, n: nat, id: nat)
    requires 0 < n <= |steps| && id in After(cfg, clock, steps, n).events
               && id < After(cfg, clock, steps, n - 1).nextEvent
    ensures id in After(cfg, clock, steps, n - 1).events
    ensures SameIdentity(After(cfg, clock, steps, n - 1).events[id], After(cfg, clock, steps, n).events[id])
  {
    var before, step := After(cfg, clock, steps, n - 1), steps[n - 1];
    RunIsTidy(cfg, clock, steps, n - 1);
    ElapseKeepsViews(before, step.elapsed);
    LastStep(cfg, clock, steps, n, id);
    hide Act, ChangeOf, Legal, Changed, SameIdentity, Tidy;
    if id !in before.events {
      BornIsNew(cfg, Elapse(before, step.elapsed), step.action, id);
    }
    ChangeKeepsIdentity(id, View(before, id), ChangeOf(cfg, Elapse(before, step.elapsed), step.action, id));
  }

  /** An event's id, organization, target, type and body never change, whatever happens to it, and the id of a purged
      event is never used again. */
  lemma {:induction false} EventsAreImmutable(cfg: Config, clock: int, steps: seq<Step>, m: nat, n: nat, id: nat)
    requires m <= n <= |steps| && id in After(cfg, clock, steps, m).events && id in After(cfg, clock, steps, n).events
    ensures SameIdentity(After(cfg, clock, steps, m).events[id], After(cfg, clock, steps, n).events[id])
    ensures forall k :: m <= k <= n ==> id in After(cfg, clock, steps, k).events
  {
    hide After;
    if m < n {
      RunIsTidy(cfg, clock, steps, m);
      IdsOnlyGrow(cfg, clock, steps, m, n - 1);
      StoredIdIsUsed(After(cfg, clock, steps, m), id);
      StoredBefore(cfg, clock, steps, n, id);
      EventsAreImmutable(cfg, clock, steps, m, n - 1, id);
    }
  }

  predicate NotRedelivered(steps: seq<Step>, m: nat, n: nat, id: nat)
    requires m <= n <= |steps|
  {
    forall i :: m <= i < n && steps[i].action.Redelivers? ==> steps[i].action.id != id
  }

  /** A terminal status is left only by a redelivery: without one the event stays exactly as it is until it is
      purged. */
  lemma {:induction false} TerminalStays(cfg: Config, clock: int, steps: seq<Step>, m: nat, n: nat, id: nat)
    requires m <= n <= |steps| && NotRedelivered(steps, m, n, id)
    requires id in After(cfg, clock, steps, m).events && After(cfg, clock, steps, m).events[id].status != Pending
    ensures id in After(cfg, clock, steps, n).events ==>
              After(cfg, clock, steps, n).events[id] == After(cfg, clock, steps, m).events[id]
  {
    hide After, Act, SameIdentity;
    if m < n && id in After(cfg, clock, steps, n).events {
      EventsAreImmutable(cfg, clock, steps, m, n, id);
      assert id in After(cfg, clock, steps, n - 1).events;
      TerminalStays(cfg, clock, steps, m, n - 1, id);
      TerminalStaysAStep(cfg, clock, steps, n, id);
    }
  }

  lemma TerminalStaysAStep(cfg: Config, clock: int, steps: seq<Step>, n: nat, id: nat)
    requires 0 < n <= |steps| && (steps[n - 1].action.Redelivers? ==> steps[n - 1].action.id != id)
    requires id in After(cfg, clock, steps, n - 1).events && id in After(cfg, clock, steps, n).events
    requires Terminal(After(cfg, clock, steps, n - 1).events[id].status)
    ensures After(cfg, clock, steps, n).events[id] == After(cfg, clock, steps, n - 1).events[id]
  {
    hide Act, After, Legal, Changed, ChangeOf;
    var before, step := After(cfg, clock, steps, n - 1), steps[n - 1];
    LastStep(cfg, clock, steps, n, id);
    OnlyRedeliveryRequeues(cfg, Elapse(before, step.elapsed), step.action, id);
    TerminalOnlyPurged(id, View(before, id), ChangeOf(cfg, Elapse(before, step.elapsed), step.action, id));
  }

  lemma OnlyRedeliveryRequeues(cfg: Config, st: State, action: Action, id: nat)
    ensures ChangeOf(cfg, st, action, id).Requeued? ==> action.Redelivers? && action.id == id
  {
    hide Act, Target;
  }

  lemma TerminalOnlyPurged(id: nat, t: Track, c: Change)
    requires Legal(id, t, c) && t.event.Some? && Terminal(t.event.value.status) && !c.Requeued?
    ensures Changed(id, t, c).event == t.event || Changed(id, t, c).event.None?
  {
  }

  /** No step removes a pending event, however old it is. */
  lemma PendingIsNeverPurged(cfg: Config, clock: int, steps: seq<Step>, n: nat, id: nat)
    requires n < |steps| && id in After(cfg, clock, steps, n).events
    requires After(cfg, clock, steps, n).events[id].status == Pending
    ensures id in After(cfg, clock, steps, n + 1).events
  {
    LastStep(cfg, clock, steps, n + 1, id);
    hide Act, After, ChangeOf;
  }

  // ---- Fan-out ----

  ghost predicate EndpointsTidy(st: State) {
    forall e: nat :: e in st.endpoints ==> st.endpoints[e].id == e && e < st.nextEndpoint
  }

  /** What fan-out selects: exactly the organization's enabled endpoints whose filter admits the type, oldest first. */
  lemma MatchingAre(st: State, org: string, kind: string, e: Endpoint)
    requires EndpointsTidy(st)
    ensures e in Matching(st, org, kind) <==>
            e.id in st.endpoints && st.endpoints[e.id] == e && e.org == org
              && e.status == Enabled && (e.kinds.None? || kind in e.kinds.value)
  {
    var list := ListEndpoints(st.endpoints, org, st.nextEndpoint);
    FilterMember(list, Selects(kind), e);
    if e in list {
      var i :| 0 <= i < |list| && list[i] == e;
      ListedIsStored(st.endpoints, org, st.nextEndpoint, i);
    } else if e.id in st.endpoints && st.endpoints[e.id] == e && e.org == org {
      StoredIsListed(st.endpoints, org, st.nextEndpoint, e.id);
    }
  }

  lemma TargetIsSelected(st: State, org: string, kind: string, k: nat)
    requires EndpointsTidy(st) && k < |Matching(st, org, kind)|
    ensures var e := Matching(st, org, kind)[k];
            e.id in st.endpoints && st.endpoints[e.id] == e && e.org == org
              && e.status == Enabled && MatchesKind(e, kind)
  {
    MatchingAre(st, org, kind, Matching(st, org, kind)[k]);
  }

  lemma MatchingOldestFirst(st: State, org: string, kind: string)
    requires EndpointsTidy(st)
    ensures var m := Matching(st, org, kind); forall i, j :: 0 <= i < j < |m| ==> m[i].id < m[j].id
  {
    var list, older := ListEndpoints(st.endpoints, org, st.nextEndpoint), (a: Endpoint, b: Endpoint) => a.id < b.id;
    forall i, j | 0 <= i < j < |list| ensures older(list[i], list[j]) {
      ListedOldestFirst(st.endpoints, org, st.nextEndpoint, i, j);
    }
    FilterKeepsOrder(list, Selects(kind), older);
    var m := Matching(st, org, kind);
    forall i, j | 0 <= i < j < |m| ensures m[i].id < m[j].id {
      assert older(m[i], m[j]);
    }
  }

  /** An enqueue that succeeds stores one pending event for each selected endpoint, and if there is none a single
      placeholder that waits for a redelivery; it changes nothing else. One that fails has stored a prefix of them. */
  lemma EnqueueFansOut(st: State, org: string, kind: string, data: string, saves: nat, k: nat)
    requires EndpointsTidy(st)
    ensures var after, targets := Enqueue(st, org, kind, data, saves), Matching(st, org, kind);
            var n := Least(saves, if targets == [] then 1 else |targets|);
            && after == st.(events := after.events, nextEvent := st.nextEvent + n)
            && (forall id: nat :: id < st.nextEvent ==>
                  (id in after.events <==> id in st.events) && (id in st.events ==> after.events[id] == st.events[id]))
            && (k < n ==>
                  && st.nextEvent + k in after.events
                  && var e := after.events[st.nextEvent + k];
                     && e.org == org && e.kind == kind && e.body == Envelope(e.id, kind, st.clock, data)
                     && e.attempts == 0 && e.lastAttemptAt == None && e.nextAttemptAt == e.createdAt == st.clock
                     && (targets == [] ==> e.status == NoEndpoint && e.endpoint == None)
                     && (targets != [] ==> e.status == Pending && e.endpoint == Some(targets[k].id)))
  {
    var targets := Matching(st, org, kind);
    if targets != [] {
      var n := Least(saves, |targets|);
      FanOutEffect(st, targets, kind, data, n);
      if k < n {
        FanOutCreates(st, targets, kind, data, n, k);
        TargetIsSelected(st, org, kind, k);
      }
    }
  }

  // ---- Endpoints over runs ----

  /** An endpoint's counter is what the journal says, and an enabled endpoint is below the threshold. */
  ghost predicate Booking(cfg: Config, st: State, e: nat) {
    e in st.endpoints ==>
      && st.endpoints[e].failures == FailedSince(st.journal, e)
      && (st.endpoints[e].status == Enabled ==> st.endpoints[e].failures < cfg.threshold)
  }

  lemma FirstIsStored(st: State, org: string)
    requires EndpointsTidy(st) && FirstEndpoint(st, org).Some?
    ensures var first := FirstEndpoint(st, org).value;
            first.id in st.endpoints && st.endpoints[first.id] == first && first.org == org
  {
    ListedIsStored(st.endpoints, org, st.nextEndpoint, 0);
  }

  lemma DispatchKeepsBooking(cfg: Config, st: State, id: nat, a: Attempt, e: nat)
    requires cfg.threshold >= 1 && EndpointsTidy(st) && Booking(cfg, st, e)
    ensures var after := Dispatch(cfg, st, id, a); EndpointsTidy(after) && Booking(cfg, after, e)
  {
    if Due(st, id) && Target(st, st.events[id]).Some? {
      TargetIsStored(st, st.events[id]);
      hide Target, ListEndpoints, RetrySchedule.NextAttempt;
    }
  }

  lemma ActKeepsBooking(cfg: Config, st: State, action: Action, e: nat)
    requires cfg.threshold >= 1 && EndpointsTidy(st) && Booking(cfg, st, e)
    ensures var after := Act(cfg, st, action); EndpointsTidy(after) && Booking(cfg, after, e)
  {
    hide Matching, FirstEndpoint, ListEndpoints, ValidFilter, Dispatch;
    match action {
      case Enqueues(org, kind, data, saves) =>
        var targets := Matching(st, org, kind);
        FanOutEffect(st, targets, kind, data, Least(saves, |targets|));
      case Purges(retention) => PurgeEffect(st, retention, |retention|);
      case Dispatches(id, a) => DispatchKeepsBooking(cfg, st, id, a, e);
      case Sets(org, _, _) =>
        if FirstEndpoint(st, org).Some? {
          FirstIsStored(st, org);
        }
      case _ =>
    }
  }

  /** In every reachable state an endpoint's counter equals the attempts that ended in FAILED there since the last
      delivery, enabling or creation, and an enabled endpoint's counter is below the auto-disable threshold. */
  lemma {:induction false} CounterIsFailuresSince(cfg: Config, clock: int, steps: seq<Step>, n: nat, e: nat)
    requires n <= |steps| && cfg.threshold >= 1
    ensures var st := After(cfg, clock, steps, n);
            && EndpointsTidy(st)
            && (e in st.endpoints ==>
                  && st.endpoints[e].failures == FailedSince(st.journal, e)
                  && (st.endpoints[e].status == Enabled ==> FailedSince(st.journal, e) < cfg.threshold))
  {
    if n > 0 {
      hide Act;
      CounterIsFailuresSince(cfg, clock, steps, n - 1, e);
      var before, step := After(cfg, clock, steps, n - 1), steps[n - 1];
      ActKeepsBooking(cfg, Elapse(before, step.elapsed), step.action, e);
    }
  }

  /** Neither enabled now nor able to be, short of EnableEndpoint: its id is taken. */
  ghost predicate NotEnabled(st: State, e: nat) {
    e < st.nextEndpoint && (e in st.endpoints ==> st.endpoints[e].status != Enabled)
  }

  /** New events addressed to an endpoint. */
  ghost predicate NothingNewFor(st: State, after: State, e: nat) {
    forall id: nat :: id >= st.nextEvent && id in after.events ==> after.events[id].endpoint != Some(e)
  }

  lemma FanOutSkips(st: State, org: string, kind: string, data: string, saves: nat, e: nat)
    requires EndpointsTidy(st) && Tidy(st) && NotEnabled(st, e)
    ensures NothingNewFor(st, Enqueue(st, org, kind, data, saves), e)
  {
    var after, targets := Enqueue(st, org, kind, data, saves), Matching(st, org, kind);
    NothingStoredBeyond(st);
    hide Matching, Tidy;
    var n := Least(saves, |targets|);
    FanOutEffect(st, targets, kind, data, n);
    hide FanOut;
    forall id: nat | id >= st.nextEvent && id in after.events ensures after.events[id].endpoint != Some(e) {
      if targets != [] {
        var k := id - st.nextEvent;
        FanOutCreates(st, targets, kind, data, n, k);
        TargetIsSelected(st, org, kind, k);
      }
    }
  }

  predicate Reopens(action: Action, e: nat) { action.Enables? && action.id == e }

  /** A requested test delivery goes to the organization's first endpoint, enabled or not. */
  predicate Tests(st: State, action: Action, e: nat) {
    && action.SendsTest? && FirstEndpoint(st, action.org).Some? && FirstEndpoint(st, action.org).value.id == e
  }

  lemma ActKeepsNotEnabled(cfg: Config, st: State, action: Action, e: nat)
    requires EndpointsTidy(st) && NotEnabled(st, e) && !Reopens(action, e)
    ensures NotEnabled(Act(cfg, st, action), e)
  {
    hide Matching, FirstEndpoint, ListEndpoints, ValidFilter, AttemptOutcome, Target;
    match action {
      case Enqueues(org, kind, data, saves) =>
        var targets := Matching(st, org, kind);
        FanOutEffect(st, targets, kind, data, Least(saves, |targets|));
      case Purges(retention) => PurgeEffect(st, retention, |retention|);
      case Sets(org, _, _) =>
        if FirstEndpoint(st, org).Some? {
          FirstIsStored(st, org);
        }
      case Dispatches(id, a) =>
        if Due(st, id) && Target(st, st.events[id]).Some? {
          TargetIsStored(st, st.events[id]);
        }
      case _ =>
    }
  }

  lemma ActAddressesNothing(cfg: Config, st: State, action: Action, e: nat)
    requires EndpointsTidy(st) && Tidy(st) && NotEnabled(st, e) && !Tests(st, action, e)
    ensures NothingNewFor(st, Act(cfg, st, action), e)
  {
    hide Enqueue, FirstEndpoint, ListEndpoints, ValidFilter, AttemptOutcome, Target, View, Purge;
    match action {
      case Enqueues(org, kind, data, saves) => FanOutSkips(st, org, kind, data, saves, e);
      case Purges(retention) =>
        PurgeEffect(st, retention, |retention|);
        NothingStoredBeyond(st);
      case _ => NothingStoredBeyond(st);
    }
  }

  lemma NothingStoredBeyond(st: State)
    requires Tidy(st)
    ensures forall id: nat :: id >= st.nextEvent ==> id !in st.events
  {
    forall id: nat | id >= st.nextEvent ensures id !in st.events {
      assert View(st, id) == BLANK;
    }
  }

  /** No action among steps m to n enables the endpoint or sends it a test. */
  ghost predicate NoReopening(cfg: Config, clock: int, steps: seq<Step>, m: nat, n: nat, e: nat)
    requires n <= |steps|
    decreases n
  {
    n <= m || (NoReopening(cfg, clock, steps, m, n - 1, e)
               && !Reopens(steps[n - 1].action, e)
               && !Tests(Elapse(After(cfg, clock, steps, n - 1), steps[n - 1].elapsed), steps[n - 1].action, e))
  }

  lemma {:induction false} EndpointsStayTidy(cfg: Config, clock: int, steps: seq<Step>, n: nat)
    requires n <= |steps|
    ensures EndpointsTidy(After(cfg, clock, steps, n))
  {
    hide Act;
    if n > 0 {
      EndpointsStayTidy(cfg, clock, steps, n - 1);
      ActKeepsEndpointsTidy(cfg, Elapse(After(cfg, clock, steps, n - 1), steps[n - 1].elapsed), steps[n - 1].action);
    }
  }

  lemma StepAddressesNothing(cfg: Config, clock: int, steps: seq<Step>, n: nat, e: nat)
    requires 0 < n <= |steps| && NotEnabled(After(cfg, clock, steps, n - 1), e)
    requires NoReopening(cfg, clock, steps, n - 1, n, e)
    ensures NotEnabled(After(cfg, clock, steps, n), e)
    ensures NothingNewFor(After(cfg, clock, steps, n - 1), After(cfg, clock, steps, n), e)
  {
    hide Act, Tidy, Tests, EndpointsTidy;
    var before, step := After(cfg, clock, steps, n - 1), steps[n - 1];
    RunIsTidy(cfg, clock, steps, n - 1);
    EndpointsStayTidy(cfg, clock, steps, n - 1);
    ElapseKeepsViews(before, step.elapsed);
    ElapseKeepsEndpoints(before, step.elapsed);
    ActKeepsNotEnabled(cfg, Elapse(before, step.elapsed), step.action, e);
    ActAddressesNothing(cfg, Elapse(before, step.elapsed), step.action, e);
  }

  lemma ElapseKeepsEndpoints(st: State, d: nat)
    requires EndpointsTidy(st)
    ensures EndpointsTidy(Elapse(st, d))
  {
  }

  lemma NothingYet(cfg: Config, clock: int, steps: seq<Step>, m: nat, e: nat)
    requires m <= |steps|
    ensures NothingNewFor(After(cfg, clock, steps, m), After(cfg, clock, steps, m), e)
  {
    RunIsTidy(cfg, clock, steps, m);
    NothingStoredBeyond(After(cfg, clock, steps, m));
  }

  /** An endpoint that is not enabled, such as one auto-disabled, is addressed by no new event until it is enabled
      again; only a test delivery requested for it goes past that. */
  lemma {:induction false} DisabledGetsNothingNew(cfg: Config, clock: int, steps: seq<Step>, m: nat, n: nat, e: nat)
    requires m <= n <= |steps|
    requires NotEnabled(After(cfg, clock, steps, m), e) && NoReopening(cfg, clock, steps, m, n, e)
    ensures NotEnabled(After(cfg, clock, steps, n), e)
    ensures NothingNewFor(After(cfg, clock, steps, m), After(cfg, clock, steps, n), e)
  {
    hide After, Tests, NotEnabled, NothingNewFor;
    if m < n {
      DisabledGetsNothingNew(cfg, clock, steps, m, n - 1, e);
      StepAddressesNothing(cfg, clock, steps, n, e);
      AddressedInTwo(cfg, clock, steps, m, n, e);
    } else {
      NothingYet(cfg, clock, steps, m, e);
    }
  }

  lemma AddressedInTwo(cfg: Config, clock: int, steps: seq<Step>, m: nat, n: nat, e: nat)
    requires m < n <= |steps|
    requires NothingNewFor(After(cfg, clock, steps, m), After(cfg, clock, steps, n - 1), e)
    requires NothingNewFor(After(cfg, clock, steps, n - 1), After(cfg, clock, steps, n), e)
    ensures NothingNewFor(After(cfg, clock, steps, m), After(cfg, clock, steps, n), e)
  {
    hide After;
    forall id: nat | id >= After(cfg, clock, steps, m).nextEvent && id in After(cfg, clock, steps, n).events
      ensures After(cfg, clock, steps, n).events[id].endpoint != Some(e)
    {
      if id < After(cfg, clock, steps, n - 1).nextEvent {
        StoredBefore(cfg, clock, steps, n, id);
      }
    }
  }

  // ---- The endpoint cap ----

  lemma {:induction false} ListShrinks(before: map<nat, Endpoint>, after: map<nat, Endpoint>, org: string, n: nat)
    requires forall e: nat :: e < n && e in after && after[e].org == org ==> e in before && before[e].org == org
    ensures |ListEndpoints(after, org, n)| <= |ListEndpoints(before, org, n)|
  {
    if n > 0 {
      ListShrinks(before, after, org, n - 1);
    }
  }

  lemma AddedIsListed(st: State, owner: string, url: string, kinds: Option<seq<string>>, org: string)
    requires EndpointsTidy(st)
    ensures var after := AddEndpoint(st, owner, url, kinds);
            |ListEndpoints(after.endpoints, org, after.nextEndpoint)|
            <= |ListEndpoints(st.endpoints, org, st.nextEndpoint)| + (if owner == org then 1 else 0)
  {
    ListShrinks(st.endpoints, AddEndpoint(st, owner, url, kinds).endpoints, org, st.nextEndpoint);
  }

  lemma ActKeepsEndpointsTidy(cfg: Config, st: State, action: Action)
    requires EndpointsTidy(st)
    ensures EndpointsTidy(Act(cfg, st, action))
  {
    hide Matching, FirstEndpoint, ListEndpoints, ValidFilter, Target, AttemptOutcome;
    match action {
      case Enqueues(org, kind, data, saves) =>
        var targets := Matching(st, org, kind);
        FanOutEffect(st, targets, kind, data, Least(saves, |targets|));
      case Purges(retention) => PurgeEffect(st, retention, |retention|);
      case Dispatches(id, a) =>
        if Due(st, id) && Target(st, st.events[id]).Some? {
          TargetIsStored(st, st.events[id]);
        }
      case Sets(org, _, _) =>
        if FirstEndpoint(st, org).Some? {
          FirstIsStored(st, org);
        }
      case _ =>
    }
  }

  /** Every action but a creation leaves each endpoint with its organization. */
  lemma ActKeepsOwners(cfg: Config, st: State, action: Action, e: nat)
    requires EndpointsTidy(st) && e < st.nextEndpoint && e in Act(cfg, st, action).endpoints
    ensures e in st.endpoints && st.endpoints[e].org == Act(cfg, st, action).endpoints[e].org
  {
    hide Matching, FirstEndpoint, ListEndpoints, ValidFilter, Target, AttemptOutcome;
    match action {
      case Enqueues(org, kind, data, saves) =>
        var targets := Matching(st, org, kind);
        FanOutEffect(st, targets, kind, data, Least(saves, |targets|));
      case Purges(retention) => PurgeEffect(st, retention, |retention|);
      case Dispatches(id, a) =>
        if Due(st, id) && Target(st, st.events[id]).Some? {
          TargetIsStored(st, st.events[id]);
        }
      case Sets(org, _, _) =>
        if FirstEndpoint(st, org).Some? {
          FirstIsStored(st, org);
        }
      case _ =>
    }
  }

  function Room(cfg: Config): nat { if cfg.cap > 1 then cfg.cap else 1 }

  predicate WithinCap(cfg: Config, st: State, org: string) {
    |ListEndpoints(st.endpoints, org, st.nextEndpoint)| <= Room(cfg)
  }

  lemma ActKeepsCap(cfg: Config, st: State, action: Action, org: string)
    requires EndpointsTidy(st) && WithinCap(cfg, st, org)
    ensures WithinCap(cfg, Act(cfg, st, action), org)
  {
    var after := Act(cfg, st, action);
    ActNextEndpoint(cfg, st, action);
    if after.nextEndpoint == st.nextEndpoint {
      forall e: nat | e < st.nextEndpoint && e in after.endpoints && after.endpoints[e].org == org
        ensures e in st.endpoints && st.endpoints[e].org == org
      {
        ActKeepsOwners(cfg, st, action, e);
      }
      hide Act;
      ListShrinks(st.endpoints, after.endpoints, org, st.nextEndpoint);
    } else {
      AddedIsListed(st, action.org, action.url, if action.Creates? then action.kinds else None, org);
    }
  }

  /** Only a creation gives out an endpoint id: through CreateEndpoint below the cap, through SetEndpoint as the
      first. */
  lemma ActNextEndpoint(cfg: Config, st: State, action: Action)
    ensures var after := Act(cfg, st, action);
            after.nextEndpoint != st.nextEndpoint ==>
              && (action.Creates? || action.Sets?)
              && after == AddEndpoint(st, action.org, action.url, if action.Creates? then action.kinds else None)
              && |ListEndpoints(st.endpoints, action.org, st.nextEndpoint)| < Room(cfg)
  {
    hide Matching, ValidFilter, Target, AttemptOutcome;
    match action {
      case Enqueues(org, kind, data, saves) =>
        var targets := Matching(st, org, kind);
        FanOutEffect(st, targets, kind, data, Least(saves, |targets|));
      case Purges(retention) => PurgeEffect(st, retention, |retention|);
      case _ =>
    }
  }

  /** No organization ever has more endpoints than the cap, or one if the cap is zero: the compatibility alias creates a
      first endpoint without looking at the cap. */
  lemma {:induction false} EndpointsWithinCap(cfg: Config, clock: int, steps: seq<Step>, n: nat, org: string)
    requires n <= |steps|
    ensures WithinCap(cfg, After(cfg, clock, steps, n), org)
  {
    hide Act;
    if n > 0 {
      EndpointsWithinCap(cfg, clock, steps, n - 1, org);
      EndpointsStayTidy(cfg, clock, steps, n - 1);
      ActKeepsCap(cfg, Elapse(After(cfg, clock, steps, n - 1), steps[n - 1].elapsed), steps[n - 1].action, org);
    }
  }
}

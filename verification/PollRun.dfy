/** One instance's poll ticks with a crash or an error allowed at any point: fetch, emit one event per fired
    record, save (server/internal/triggers/poll.go). */
module PollRun {
  import opened Common
  import opened Watermark

  /** The stored instance row and the trigger events enqueued so far. */
  datatype PollState = PollState(saved: TriggerInstance, outbox: seq<PollRecord>)

  datatype ConnectionLookup = LookupFailed | ConnectionInactive | ConnectionActive

  /** Everything outside the poller's control during one tick: what the ports answer, how many enqueues
      succeed before one fails or the process dies, and whether the closing Save lands. */
  datatype Attempt = Attempt(
    connection: ConnectionLookup, fetched: Option<seq<PollRecord>>, now: int, interval: int, enqueues: nat, saves: bool)

  function Reschedule(instance: TriggerInstance, now: int, interval: int): TriggerInstance {
    instance.(nextPollAt := Some(now + interval))
  }

  function Save(s: PollState, instance: TriggerInstance, a: Attempt): PollState {
    if a.saves then s.(saved := Reschedule(instance, a.now, a.interval)) else s
  }

  function PollActive(s: PollState, a: Attempt): PollState {
    if a.fetched.None? then Save(s, s.saved, a)
    else
      var outcome := ApplyWatermark(s.saved, a.fetched.value, a.now);
      if a.enqueues < |outcome.toFire| then s.(outbox := s.outbox + outcome.toFire[..a.enqueues])
      else Save(s.(outbox := s.outbox + outcome.toFire), outcome.instance, a)
  }

  function PollOne(s: PollState, a: Attempt): PollState {
    match a.connection
    case LookupFailed => Save(s, s.saved, a)
    case ConnectionInactive => Save(s, Pause(s.saved, a.now), a)
    case ConnectionActive => if s.saved.pausedAt.Some? then Save(s, Resume(s.saved, a.now), a) else PollActive(s, a)
  }

  /** The poller as the source writes it: branches and an emit loop over a stored row and an event sink. */
  class Poller {
    var saved: TriggerInstance
    var outbox: seq<PollRecord>

    constructor (now: int)
      ensures State() == PollState(NewTriggerInstance(now), [])
    {
      saved, outbox := NewTriggerInstance(now), [];
    }

    function State(): PollState
      reads this
    {
      PollState(saved, outbox)
    }

    method SaveRow(instance: TriggerInstance, a: Attempt)
      modifies this`saved
      ensures State() == Save(old(State()), instance, a)
    {
      if a.saves {
        saved := Reschedule(instance, a.now, a.interval);
      }
    }

    /** Enqueues oldest first and stops at the first failure. */
    method EmitFiredEvents(records: seq<PollRecord>, enqueues: nat) returns (ok: bool)
      modifies this`outbox
      ensures ok <==> |records| <= enqueues
      ensures outbox == old(outbox) + (if ok then records else records[..enqueues])
    {
      for i := 0 to |records|
        invariant i <= enqueues
        invariant outbox == old(outbox) + records[..i]
      {
        if i == enqueues {
          return false;
        }
        outbox := outbox + [records[i]];
        assert records[..i + 1] == records[..i] + [records[i]];
      }
      assert records[..|records|] == records;
      return true;
    }

    method PollActiveTick(a: Attempt)
      modifies this
      ensures State() == PollActive(old(State()), a)
    {
      if a.fetched.None? {
        SaveRow(saved, a);
        return;
      }
      var outcome := ApplyWatermark(saved, a.fetched.value, a.now);
      var ok := EmitFiredEvents(outcome.toFire, a.enqueues);
      if !ok {
        return;
      }
      SaveRow(outcome.instance, a);
    }

    method Poll(a: Attempt)
      modifies this
      ensures State() == PollOne(old(State()), a)
    {
      if a.connection.LookupFailed? {
        SaveRow(saved, a);
      } else if a.connection.ConnectionInactive? {
        SaveRow(Pause(saved, a.now), a);
      } else if saved.pausedAt.Some? {
        SaveRow(Resume(saved, a.now), a);
      } else {
        PollActiveTick(a);
      }
    }
  }

  // ---- Runs, with the bookkeeping the promises speak about ----

  /** eligible: records that appeared at the provider after the baseline while the stored state could still
      fire them. failed: everything fetched by ticks that did not run to their Save. resets: the time of each resume
      or enable that took effect. */
  datatype Ledger = Ledger(state: PollState, eligible: set<Key>, failed: seq<PollRecord>, resets: seq<int>)

  /** A record that appears between a tick's fetch and its Save is one that appears right after the tick. */
  datatype Event = Appears(k: Key) | Polls(a: Attempt) | Disables | Enables(at: int)

  predicate ReachesFetch(s: PollState, a: Attempt) {
    a.connection.ConnectionActive? && s.saved.pausedAt.None? && a.fetched.Some?
  }

  predicate Completes(s: PollState, a: Attempt) {
    ReachesFetch(s, a) && a.saves && |ApplyWatermark(s.saved, a.fetched.value, a.now).toFire| <= a.enqueues
  }

  predicate ResumesAt(s: PollState, a: Attempt) {
    a.connection.ConnectionActive? && s.saved.pausedAt.Some? && a.saves
  }

  function StillAhead(eligible: set<Key>, saved: TriggerInstance): set<Key> {
    set k | k in eligible && !Passed(saved, k)
  }

  function Next(l: Ledger, e: Event): Ledger {
    match e
    case Appears(k) =>
      if l.state.saved.watermarkAt.Some? && !Passed(l.state.saved, k) then l.(eligible := l.eligible + {k}) else l
    case Polls(a) =>
      var s := PollOne(l.state, a);
      Ledger(s, if ResumesAt(l.state, a) then StillAhead(l.eligible, s.saved) else l.eligible,
             l.failed + (if ReachesFetch(l.state, a) && !Completes(l.state, a) then a.fetched.value else []),
             if ResumesAt(l.state, a) then l.resets + [a.now] else l.resets)
    case Disables => l.(state := l.state.(saved := Disable(l.state.saved)))
    case Enables(at) =>
      var saved := Enable(l.state.saved, at);
      l.(state := l.state.(saved := saved), eligible := StillAhead(l.eligible, saved), resets := l.resets + [at])
  }

  function Occurrences(rs: seq<PollRecord>, k: Key): nat {
    if rs == [] then 0 else Occurrences(rs[..|rs| - 1], k) + (if KeyOf(rs[|rs| - 1]) == k then 1 else 0)
  }

  /** How many resets went back to k's time or before it. */
  function Rewinds(resets: seq<int>, k: Key): nat {
    if resets == [] then 0
    else Rewinds(resets[..|resets| - 1], k) + (if resets[|resets| - 1] <= k.timestamp then 1 else 0)
  }

  /** The provider keeps returning everything eligible at or after the watermark. */
  ghost predicate Returned(l: Ledger, e: Event) {
    e.Polls? && ReachesFetch(l.state, e.a) ==>
      var saved := l.state.saved;
      forall k :: k in l.eligible && saved.watermarkAt.Some? && k.timestamp >= saved.watermarkAt.value
                  ==> k in KeysOf(e.a.fetched.value)
  }

  /** No batch holds k twice. */
  predicate Single(e: Event, k: Key) {
    e.Polls? && e.a.fetched.Some? ==> Occurrences(e.a.fetched.value, k) <= 1
  }

  /** No loss: the stored state passes an eligible record only once an event is enqueued for it. */
  ghost predicate NothingLost(l: Ledger) {
    && (l.eligible != {} ==> l.state.saved.watermarkAt.Some?)
    && forall k :: k in l.eligible && Passed(l.state.saved, k) ==> k in KeysOf(l.state.outbox)
  }

  /** Enqueued at most once, plus once per failed tick that fetched it and once per reset that went back over it. */
  ghost predicate BoundedRepeats(l: Ledger, k: Key) {
    Occurrences(l.state.outbox, k)
      <= Occurrences(l.failed, k) + Rewinds(l.resets, k) + (if Passed(l.state.saved, k) then 1 else 0)
  }

  // ---- Counting occurrences ----

  lemma {:induction false} OccurrencesConcat(a: seq<PollRecord>, b: seq<PollRecord>, k: Key)
    ensures Occurrences(a + b, k) == Occurrences(a, k) + Occurrences(b, k)
  {
    if b == [] {
      assert a + b == a;
    } else {
      OccurrencesConcat(a, b[..|b| - 1], k);
      assert (a + b)[..|a + b| - 1] == a + b[..|b| - 1];
    }
  }

  lemma {:induction false} OccursIffMember(rs: seq<PollRecord>, k: Key)
    ensures Occurrences(rs, k) > 0 <==> k in KeysOf(rs)
  {
    if rs != [] {
      var front, last := rs[..|rs| - 1], rs[|rs| - 1];
      OccursIffMember(front, k);
      assert rs == front + [last];
      assert KeysOf(rs) == KeysOf(front) + {KeyOf(last)};
    }
  }

  lemma {:induction false} InsertOccurrences(r: PollRecord, rs: seq<PollRecord>, k: Key)
    ensures Occurrences(Insert(r, rs), k) == Occurrences(rs, k) + Occurrences([r], k)
  {
    if rs == [] || NotAfter(r, rs[0]) {
      OccurrencesConcat([r], rs, k);
    } else {
      InsertOccurrences(r, rs[1..], k);
      OccurrencesConcat([rs[0]], Insert(r, rs[1..]), k);
      OccurrencesConcat([rs[0]], rs[1..], k);
      assert rs == [rs[0]] + rs[1..];
    }
  }

  lemma {:induction false} SortedOccurrences(rs: seq<PollRecord>, k: Key)
    ensures Occurrences(SortedByTimestamp(rs), k) == Occurrences(rs, k)
  {
    if rs != [] {
      SortedOccurrences(rs[1..], k);
      InsertOccurrences(rs[0], SortedByTimestamp(rs[1..]), k);
      OccurrencesConcat([rs[0]], rs[1..], k);
      assert rs == [rs[0]] + rs[1..];
    }
  }

  lemma {:induction false} FilterOccurrences(rs: seq<PollRecord>, p: PollRecord -> bool, k: Key)
    ensures Occurrences(Filter(rs, p), k) <= Occurrences(rs, k)
  {
    if rs != [] {
      var front, last := rs[..|rs| - 1], rs[|rs| - 1];
      FilterOccurrences(front, p, k);
      OccurrencesConcat(Filter(front, p), if p(last) then [last] else [], k);
    }
  }

  /** What a tick emits of one record never exceeds what the provider returned of it. */
  lemma EmittedAtMostFetched(instance: TriggerInstance, batch: seq<PollRecord>, now: int, n: nat, k: Key)
    requires n <= |ApplyWatermark(instance, batch, now).toFire|
    ensures Occurrences(ApplyWatermark(instance, batch, now).toFire[..n], k) <= Occurrences(batch, k)
    ensures Occurrences(ApplyWatermark(instance, batch, now).toFire, k) <= Occurrences(batch, k)
  {
    var toFire := ApplyWatermark(instance, batch, now).toFire;
    var sorted := SortedByTimestamp(batch);
    SortedOccurrences(batch, k);
    if instance.watermarkAt.Some? {
      var w, seen := instance.watermarkAt.value, instance.seenIDs;
      FilterOccurrences(sorted, r => Fires(w, seen, r), k);
    }
    OccurrencesConcat(toFire[..n], toFire[n..], k);
    assert toFire[..n] + toFire[n..] == toFire;
  }

  // ---- One tick ----

  lemma FiredIffAhead(instance: TriggerInstance, batch: seq<PollRecord>, now: int, k: Key)
    ensures var o := ApplyWatermark(instance, batch, now);
            && (Passed(instance, k) ==> Passed(o.instance, k))
            && (k in KeysOf(batch) ==> Passed(o.instance, k))
            && (k in KeysOf(o.toFire) <==> instance.watermarkAt.Some? && k in KeysOf(batch) && !Passed(instance, k))
  {
    hide ApplyWatermark, Passed;
    var o := ApplyWatermark(instance, batch, now);
    TickPasses(instance, batch, now, PollRecord(k.id, k.timestamp, ""));
    if k in KeysOf(batch) {
      var r :| r in batch && KeyOf(r) == k;
      TickPasses(instance, batch, now, r);
      assert r in o.toFire ==> KeyOf(r) in KeysOf(o.toFire);
    }
    if k in KeysOf(o.toFire) {
      var r :| r in o.toFire && KeyOf(r) == k;
      TickPasses(instance, batch, now, r);
      assert KeyOf(r) in KeysOf(batch);
    }
  }

  /** An eligible record becomes passed by a tick only if its event is enqueued, and has it if the tick completes. */
  lemma TickLosesNothing(l: Ledger, a: Attempt, k: Key)
    requires NothingLost(l) && Returned(l, Polls(a)) && ReachesFetch(l.state, a) && k in l.eligible
    ensures var s := PollOne(l.state, a);
            && (Passed(s.saved, k) ==> k in KeysOf(s.outbox))
            && (Completes(l.state, a) ==> k in KeysOf(s.outbox))
  {
    hide ApplyWatermark;
    var saved, batch := l.state.saved, a.fetched.value;
    var o := ApplyWatermark(saved, batch, a.now);
    FiredIffAhead(saved, batch, a.now, k);
    assert KeysOf(l.state.outbox + o.toFire) == KeysOf(l.state.outbox) + KeysOf(o.toFire);
    if a.enqueues < |o.toFire| {
      assert KeysOf(l.state.outbox) <= KeysOf(l.state.outbox + o.toFire[..a.enqueues]);
    }
  }

  lemma TickRepeatsBounded(l: Ledger, a: Attempt, k: Key)
    requires BoundedRepeats(l, k) && Single(Polls(a), k) && ReachesFetch(l.state, a)
    ensures BoundedRepeats(Next(l, Polls(a)), k)
  {
    hide ApplyWatermark, Passed;
    var saved, batch := l.state.saved, a.fetched.value;
    var o := ApplyWatermark(saved, batch, a.now);
    FiredIffAhead(saved, batch, a.now, k);
    var n := if a.enqueues < |o.toFire| then a.enqueues else |o.toFire|;
    EmittedAtMostFetched(saved, batch, a.now, n, k);
    OccurrencesConcat(l.state.outbox, o.toFire[..n], k);
    OccurrencesConcat(l.state.outbox, o.toFire, k);
    OccurrencesConcat(l.failed, batch, k);
    OccursIffMember(o.toFire, k);
    assert o.toFire[..|o.toFire|] == o.toFire;
    assert l.failed + [] == l.failed;
    SavedAfterReschedule(o.instance, a.now, a.interval, k);
  }

  lemma SavedAfterReschedule(instance: TriggerInstance, now: int, interval: int, k: Key)
    ensures Passed(Reschedule(instance, now, interval), k) <==> Passed(instance, k)
  {
  }

  lemma StepLosesNothing(l: Ledger, e: Event)
    requires NothingLost(l) && Returned(l, e)
    ensures NothingLost(Next(l, e))
  {
    hide ApplyWatermark;
    if e.Polls? && ReachesFetch(l.state, e.a) {
      FetchKeepsWatermark(l.state, e.a);
      forall k | k in l.eligible ensures Passed(Next(l, e).state.saved, k) ==> k in KeysOf(Next(l, e).state.outbox) {
        TickLosesNothing(l, e.a, k);
      }
    }
  }

  lemma StepRepeatsBounded(l: Ledger, e: Event, k: Key)
    requires BoundedRepeats(l, k) && Single(e, k)
    ensures BoundedRepeats(Next(l, e), k)
  {
    hide ApplyWatermark;
    match e {
      case Polls(a) =>
        if ReachesFetch(l.state, a) {
          TickRepeatsBounded(l, a, k);
        } else {
          assert l.failed + [] == l.failed;
          assert (l.resets + [a.now])[..|l.resets|] == l.resets;
        }
      case Enables(at) => assert (l.resets + [at])[..|l.resets|] == l.resets;
      case _ =>
    }
  }

  lemma FetchKeepsWatermark(s: PollState, a: Attempt)
    requires ReachesFetch(s, a)
    ensures s.saved.watermarkAt.Some? ==> PollOne(s, a).saved.watermarkAt.Some?
  {
  }

  // ---- Whole runs ----

  function Start(now: int): Ledger {
    Ledger(PollState(NewTriggerInstance(now), []), {}, [], [])
  }

  function After(createdAt: int, events: seq<Event>, n: nat): Ledger
    requires n <= |events|
  {
    if n == 0 then Start(createdAt) else Next(After(createdAt, events, n - 1), events[n - 1])
  }

  ghost predicate AllReturned(createdAt: int, events: seq<Event>, n: nat)
    requires n <= |events|
  {
    n == 0 || (AllReturned(createdAt, events, n - 1) && Returned(After(createdAt, events, n - 1), events[n - 1]))
  }

  /** In every run of ticks, crashes, errors, pauses and resets at any time: nothing eligible is lost, provided only
      that the provider returns what is eligible. */
  lemma {:induction false} NoLossUnderCrashes(createdAt: int, events: seq<Event>, n: nat)
    requires n <= |events| && AllReturned(createdAt, events, n)
    ensures NothingLost(After(createdAt, events, n))
  {
    hide Next, Returned;
    if n == 0 {
      assert NothingLost(Start(createdAt));
    } else {
      NoLossUnderCrashes(createdAt, events, n - 1);
      StepLosesNothing(After(createdAt, events, n - 1), events[n - 1]);
    }
  }

  /** And no record is enqueued more than once, plus once per failed tick that fetched it and once per reset that went
      back over it, provided only that no batch holds it twice. */
  lemma {:induction false} RepeatsAreBounded(createdAt: int, events: seq<Event>, n: nat, k: Key)
    requires n <= |events| && forall i :: 0 <= i < n ==> Single(events[i], k)
    ensures BoundedRepeats(After(createdAt, events, n), k)
  {
    hide Next, Single;
    if n == 0 {
      assert BoundedRepeats(Start(createdAt), k);
    } else {
      RepeatsAreBounded(createdAt, events, n - 1, k);
      StepRepeatsBounded(After(createdAt, events, n - 1), events[n - 1], k);
    }
  }

  /** One completed tick is enough: everything eligible so far has its event. */
  lemma CompletedTickCatchesUp(createdAt: int, events: seq<Event>, n: nat, k: Key)
    requires n < |events| && AllReturned(createdAt, events, n + 1)
    requires events[n].Polls? && Completes(After(createdAt, events, n).state, events[n].a)
    requires k in After(createdAt, events, n).eligible
    ensures k in KeysOf(After(createdAt, events, n + 1).state.outbox)
  {
    hide NothingLost, Returned, PollOne;
    NoLossUnderCrashes(createdAt, events, n);
    TickLosesNothing(After(createdAt, events, n), events[n].a, k);
  }

  // ---- Ticks that poll nothing ----

  /** A tick whose connection lookup or fetch failed changes nothing but the time of the next poll. */
  lemma FailedTickOnlyReschedules(createdAt: int, events: seq<Event>, n: nat)
    requires n < |events| && events[n].Polls?
    requires var a, saved := events[n].a, After(createdAt, events, n).state.saved;
             || a.connection == LookupFailed
             || (a.connection == ConnectionActive && saved.pausedAt.None? && a.fetched.None?)
    ensures var before, after := After(createdAt, events, n).state, After(createdAt, events, n + 1).state;
            var a := events[n].a;
            && after.outbox == before.outbox
            && after.saved == before.saved.(nextPollAt := after.saved.nextPollAt)
            && after.saved.nextPollAt == (if a.saves then Some(a.now + a.interval) else before.saved.nextPollAt)
  {
  }

  /** Every tick that reaches its save schedules the next poll one interval later. */
  lemma SavedTickReschedules(createdAt: int, events: seq<Event>, n: nat)
    requires n < |events| && events[n].Polls? && events[n].a.saves
    requires ReachesFetch(After(createdAt, events, n).state, events[n].a)
             ==> Completes(After(createdAt, events, n).state, events[n].a)
    ensures After(createdAt, events, n + 1).state.saved.nextPollAt == Some(events[n].a.now + events[n].a.interval)
  {
    hide ApplyWatermark;
  }

  /** A tick that fetches enqueues what the decision fires, oldest first, as far as enqueues go, and moves the stored
      row only if all were enqueued and the save lands. */
  lemma TickEnqueues(createdAt: int, events: seq<Event>, n: nat)
    requires n < |events| && events[n].Polls? && ReachesFetch(After(createdAt, events, n).state, events[n].a)
    ensures var before, after := After(createdAt, events, n).state, After(createdAt, events, n + 1).state;
            var a, fires := events[n].a, FiredBy(before.saved, [Tick(events[n].a.fetched.value, events[n].a.now)], 0);
            && after.outbox == before.outbox + (if a.enqueues < |fires| then fires[..a.enqueues] else fires)
            && (a.enqueues < |fires| || !a.saves ==> after.saved == before.saved)
  {
    hide ApplyWatermark;
  }

  // ---- What the bookkeeping counts ----

  /** A record becomes eligible exactly on appearing beyond the stored watermark, or at it with an id not seen there,
      and stops being so exactly in a reset to a later time. */
  lemma EligibleIs(l: Ledger, e: Event, k: Key)
    ensures var saved, after := l.state.saved, Next(l, e).eligible;
            match e
            case Appears(appeared) =>
              k in after <==>
                || k in l.eligible
                || (&& k == appeared && saved.watermarkAt.Some?
                    && (|| k.timestamp > saved.watermarkAt.value
                        || (k.timestamp == saved.watermarkAt.value && k.id !in saved.seenIDs)))
            case Enables(at) => k in after <==> k in l.eligible && k.timestamp >= at
            case Polls(a) =>
              k in after <==>
                && k in l.eligible
                && (a.connection == ConnectionActive && saved.pausedAt != None && a.saves ==> k.timestamp >= a.now)
            case Disables => after == l.eligible
  {
    hide ApplyWatermark;
  }

  /** Disabling and enabling act on the stored row and enqueue nothing: an enabled one starts over at that time. */
  lemma SwitchesStore(l: Ledger, at: int)
    ensures Next(l, Disables).state == l.state.(saved := l.state.saved.(status := Disabled))
    ensures var enabled := Next(l, Enables(at)).state;
            && enabled.outbox == l.state.outbox && enabled.saved.status == Active
            && enabled.saved.watermarkAt == Some(at) && enabled.saved.seenIDs == {}
            && enabled.saved.pausedAt == l.state.saved.pausedAt && enabled.saved.nextPollAt == l.state.saved.nextPollAt
    ensures forall k :: Next(l, Appears(k)).state == l.state
  {
  }

  /** A tick counts as failed exactly when it fetched and an enqueue or the save was missing, and as a reset exactly
      when it found the connection active after a pause and saved. */
  lemma TickIsCounted(l: Ledger, a: Attempt)
    ensures var saved, after := l.state.saved, Next(l, Polls(a));
            var active := a.connection == ConnectionActive;
            && after.resets == l.resets + (if active && saved.pausedAt != None && a.saves then [a.now] else [])
            && (a.fetched.Some? ==>
                  var fires := FiredBy(saved, [Tick(a.fetched.value, a.now)], 0);
                  after.failed == l.failed + if active && saved.pausedAt == None && (|fires| > a.enqueues || !a.saves)
                                             then a.fetched.value else [])
            && (a.fetched.None? ==> after.failed == l.failed)
    ensures forall e: Event :: !e.Polls? ==>
              && Next(l, e).failed == l.failed
              && Next(l, e).resets == l.resets + (if e.Enables? then [e.at] else [])
  {
    hide ApplyWatermark;
  }

  // ---- A connection that leaves ACTIVE and comes back ----

  /** A tick that finds the connection active and saves. */
  predicate ComesBack(e: Event) { e.Polls? && e.a.connection == ConnectionActive && e.a.saves }

  /** A tick that finds the connection not active and saves. */
  predicate GoesAway(e: Event) { e.Polls? && e.a.connection == ConnectionInactive && e.a.saves }

  lemma {:induction false} StaysPaused(createdAt: int, events: seq<Event>, i: nat, n: nat)
    requires i < n <= |events| && GoesAway(events[i]) && forall j :: i < j < n ==> !ComesBack(events[j])
    ensures After(createdAt, events, n).state.saved.pausedAt.Some?
    ensures After(createdAt, events, n).state.outbox == After(createdAt, events, i).state.outbox
    decreases n
  {
    hide ApplyWatermark;
    if i < n - 1 {
      StaysPaused(createdAt, events, i, n - 1);
    }
  }

  /** From a saved tick that finds the connection inactive up to and including the next one that finds it active and
      saves, nothing is enqueued, whatever comes between: failed ticks, disabling, enabling. That tick polls nothing; it
      starts over at its own time. */
  lemma AwaySkipsTheGap(createdAt: int, events: seq<Event>, i: nat, n: nat)
    requires i < n < |events| && GoesAway(events[i]) && forall j :: i < j < n ==> !ComesBack(events[j])
    requires events[n].Polls? && events[n].a.connection == ConnectionActive
    ensures var before, after := After(createdAt, events, n).state, After(createdAt, events, n + 1).state;
            var a := events[n].a;
            && after.outbox == After(createdAt, events, i).state.outbox
            && (a.saves ==>
                  && after.saved.watermarkAt == Some(a.now) && after.saved.seenIDs == {} && after.saved.pausedAt == None
                  && after.saved.nextPollAt == Some(a.now + a.interval) && after.saved.status == before.saved.status)
            && (!a.saves ==> after == before)
  {
    hide ApplyWatermark;
    StaysPaused(createdAt, events, i, n);
  }

  /** Pausing keeps what was polled so far, and says when. */
  lemma GoingAwayKeepsWatermark(createdAt: int, events: seq<Event>, i: nat)
    requires i < |events| && GoesAway(events[i])
    ensures var before, after := After(createdAt, events, i).state.saved, After(createdAt, events, i + 1).state.saved;
            && after.pausedAt == Some(events[i].a.now) && after.status == before.status
            && after.watermarkAt == before.watermarkAt && after.seenIDs == before.seenIDs
  {
  }

  lemma ResetsOnlyGrow(l: Ledger, e: Event, k: Key)
    ensures Rewinds(Next(l, e).resets, k) >= Rewinds(l.resets, k)
  {
    hide PollOne, StillAhead;
    assert e.Polls? ==> (l.resets + [e.a.now])[..|l.resets|] == l.resets;
    assert e.Enables? ==> (l.resets + [e.at])[..|l.resets|] == l.resets;
  }

  lemma PassedIsNotFired(instance: TriggerInstance, batch: seq<PollRecord>, now: int, n: nat, k: Key)
    requires Passed(instance, k) && n <= |ApplyWatermark(instance, batch, now).toFire|
    ensures Occurrences(ApplyWatermark(instance, batch, now).toFire, k) == 0
    ensures Occurrences(ApplyWatermark(instance, batch, now).toFire[..n], k) == 0
  {
    hide ApplyWatermark, Passed, Occurrences;
    var toFire := ApplyWatermark(instance, batch, now).toFire;
    FiredIffAhead(instance, batch, now, k);
    OccursIffMember(toFire, k);
    OccurrencesConcat(toFire[..n], toFire[n..], k);
    assert toFire[..n] + toFire[n..] == toFire;
  }

  lemma TickLeavesPassed(s: PollState, a: Attempt, k: Key)
    requires ReachesFetch(s, a) && Passed(s.saved, k)
    ensures Passed(PollOne(s, a).saved, k) && Occurrences(PollOne(s, a).outbox, k) == Occurrences(s.outbox, k)
  {
    hide ApplyWatermark, Passed, Occurrences;
    var o := ApplyWatermark(s.saved, a.fetched.value, a.now);
    FiredIffAhead(s.saved, a.fetched.value, a.now, k);
    SavedAfterReschedule(o.instance, a.now, a.interval, k);
    var n := if a.enqueues < |o.toFire| then a.enqueues else |o.toFire|;
    PassedIsNotFired(s.saved, a.fetched.value, a.now, n, k);
    OccurrencesConcat(s.outbox, o.toFire[..n], k);
    OccurrencesConcat(s.outbox, o.toFire, k);
  }

  /** What is passed stays passed, and gets no further event, unless a reset goes back over it. */
  lemma StepLeavesPassed(l: Ledger, e: Event, k: Key)
    requires Passed(l.state.saved, k) && Rewinds(Next(l, e).resets, k) == Rewinds(l.resets, k)
    ensures Passed(Next(l, e).state.saved, k)
    ensures Occurrences(Next(l, e).state.outbox, k) == Occurrences(l.state.outbox, k)
  {
    hide PollActive, Occurrences;
    match e {
      case Polls(a) =>
        if ReachesFetch(l.state, a) {
          TickLeavesPassed(l.state, a, k);
        } else {
          if a.fetched.None? {
            FetchFails(l.state, a);
          }
          assert (l.resets + [a.now])[..|l.resets|] == l.resets;
        }
      case Enables(at) => assert (l.resets + [at])[..|l.resets|] == l.resets;
      case _ =>
    }
  }

  lemma FetchFails(s: PollState, a: Attempt)
    requires a.fetched.None?
    ensures PollActive(s, a) == Save(s, s.saved, a)
  {
  }

  lemma {:induction false} RewindsOnlyGrow(createdAt: int, events: seq<Event>, i: nat, n: nat, k: Key)
    requires i <= n <= |events|
    ensures Rewinds(After(createdAt, events, i).resets, k) <= Rewinds(After(createdAt, events, n).resets, k)
    decreases n
  {
    hide Next;
    if i < n {
      RewindsOnlyGrow(createdAt, events, i, n - 1, k);
      ResetsOnlyGrow(After(createdAt, events, n - 1), events[n - 1], k);
    }
  }

  lemma {:induction false} PassedGetsNothingMore(createdAt: int, events: seq<Event>, i: nat, n: nat, k: Key)
    requires i <= n <= |events| && Passed(After(createdAt, events, i).state.saved, k)
    requires Rewinds(After(createdAt, events, n).resets, k) == Rewinds(After(createdAt, events, i).resets, k)
    ensures Passed(After(createdAt, events, n).state.saved, k)
    ensures Occurrences(After(createdAt, events, n).state.outbox, k)
            == Occurrences(After(createdAt, events, i).state.outbox, k)
    decreases n
  {
    hide Next, Passed;
    if i < n {
      RewindsOnlyGrow(createdAt, events, i, n - 1, k);
      RewindsOnlyGrow(createdAt, events, n - 1, n, k);
      PassedGetsNothingMore(createdAt, events, i, n - 1, k);
      StepLeavesPassed(After(createdAt, events, n - 1), events[n - 1], k);
    }
  }

  /** So a record dated before the tick that found the connection back never gets an event afterwards, whenever it is
      returned, unless a later reset goes back to it. */
  lemma GapIsNeverDelivered(createdAt: int, events: seq<Event>, i: nat, n: nat, m: nat, k: Key)
    requires i < n < m <= |events| && GoesAway(events[i]) && forall j :: i < j < n ==> !ComesBack(events[j])
    requires ComesBack(events[n]) && k.timestamp < events[n].a.now
    requires Rewinds(After(createdAt, events, m).resets, k) == Rewinds(After(createdAt, events, n + 1).resets, k)
    ensures Occurrences(After(createdAt, events, m).state.outbox, k)
            == Occurrences(After(createdAt, events, i).state.outbox, k)
  {
    hide Next, Rewinds;
    AwaySkipsTheGap(createdAt, events, i, n);
    PassedGetsNothingMore(createdAt, events, n + 1, m, k);
  }
}

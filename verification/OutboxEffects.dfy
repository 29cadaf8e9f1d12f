/** What one attempt, one endpoint change and one enqueue do, told by what was answered and by fields
    (server/internal/delivery/facade.go). */
module OutboxEffects {
  import opened Common
  import opened Outbox
  import opened OutboxRuns
  import RetrySchedule

  // ---- One attempt ----

  /** The receiver answered with a success status. */
  predicate Answered2xx(response: Option<int>) { exists c :: 200 <= c < 300 && response == Some(c) }

  /** A recorded attempt at a due event of endpoint t: DELIVERED exactly for a 2xx answer, FAILED exactly for any other
      when at least nine attempts went before, otherwise PENDING and due later. The endpoint's counter is reset, raised
      or left alone accordingly, and it is disabled exactly when a raised counter reaches the threshold. */
  lemma AttemptDecides(cfg: Config, st: State, id: nat, t: nat, a: Attempt)
    requires EndpointsTidy(st) && id in st.events
    requires st.events[id].status == Pending && st.events[id].nextAttemptAt <= st.clock
    requires st.events[id].endpoint == Some(t) && t in st.endpoints && st.endpoints[t].org == st.events[id].org
    requires a.writes >= 2 && 0.0 <= a.jitter < 1.0
    ensures var after, now, e, f := Dispatch(cfg, st, id, a), st.clock + a.took, st.events[id], st.endpoints[t];
            && after.events.Keys == st.events.Keys && after.endpoints.Keys == st.endpoints.Keys && after.clock == now
            && var e', f' := after.events[id], after.endpoints[t];
               && (e'.status == Delivered <==> Answered2xx(a.response))
               && (e'.status == Failed <==> !Answered2xx(a.response) && e.attempts >= 9)
               && (e'.status == Pending <==> !Answered2xx(a.response) && e.attempts < 9)
               && (e'.status == Pending ==> e'.nextAttemptAt > now)
               && e'.attempts == e.attempts + 1 && e'.lastAttemptAt == Some(now) && SameIdentity(e, e')
               && f'.failures == (if e'.status == Delivered then 0
                                  else if e'.status == Failed then f.failures + 1 else f.failures)
               && f'.status == (if e'.status == Failed && f.failures + 1 >= cfg.threshold
                                then DisabledAuto else f.status)
               && f'.url == f.url && f'.kinds == f.kinds && f'.org == f.org && f'.id == f.id
    ensures forall i :: i in st.events && i != id ==> Dispatch(cfg, st, id, a).events[i] == st.events[i]
    ensures forall i :: i in st.endpoints && i != t ==> Dispatch(cfg, st, id, a).endpoints[i] == st.endpoints[i]
  {
    var e := st.events[id];
    assert st.endpoints[t].id == t;
    RetrySchedule.NextAttemptIsNear(st.clock + a.took, e.attempts + 1, a.jitter);
    SuccessIs2xx(a.response);
    hide RetrySchedule.NextAttempt, Succeeded, Answered2xx;
  }

  lemma SuccessIs2xx(response: Option<int>)
    ensures Answered2xx(response) <==> Succeeded(response)
  {
    if response.Some? && 200 <= response.value < 300 {
      assert response == Some(response.value);
    }
  }

  /** An attempt whose event write fails leaves the event as it was, to be attempted again; one whose endpoint write
      fails leaves the endpoint as it was. */
  lemma UnrecordedAttemptChangesNothing(cfg: Config, st: State, id: nat, a: Attempt)
    ensures a.writes == 0 ==> Dispatch(cfg, st, id, a).events == st.events
    ensures a.writes <= 1 ==> Dispatch(cfg, st, id, a).endpoints == st.endpoints
  {
    hide Target, AttemptOutcome, Booked;
  }

  /** Nothing is sent for an event that is not due, or whose endpoint is gone or of another organization. */
  lemma NotSent(cfg: Config, st: State, id: nat, a: Attempt)
    requires || id !in st.events || st.events[id].status != Pending || st.events[id].nextAttemptAt > st.clock
             || (&& st.events[id].endpoint.Some?
                 && (|| st.events[id].endpoint.value !in st.endpoints
                     || st.endpoints[st.events[id].endpoint.value].org != st.events[id].org))
    ensures Dispatch(cfg, st, id, a) == st
  {
    hide AttemptOutcome, Booked, FirstEndpoint;
  }

  /** An event stored without an endpoint goes to the organization's oldest one, and nowhere if there is none. */
  lemma PlaceholderGoesToOldest(cfg: Config, st: State, id: nat, a: Attempt)
    requires EndpointsTidy(st) && id in st.events
    requires st.events[id].status == Pending && st.events[id].nextAttemptAt <= st.clock
    requires st.events[id].endpoint == None
    ensures var after, org := Dispatch(cfg, st, id, a), st.events[id].org;
            && (after == st <==> forall e :: e in st.endpoints ==> st.endpoints[e].org != org)
            && (after != st ==>
                  && after.journal.Then? && after.journal.past == st.journal && after.journal.last.Attempted?
                  && var t := after.journal.last.endpoint;
                     && t in st.endpoints && st.endpoints[t].org == org
                     && forall e :: e in st.endpoints && st.endpoints[e].org == org ==> t <= e)
  {
    var org := st.events[id].org;
    OldestIsFirst(st, org);
    hide FirstEndpoint, AttemptOutcome, Booked;
    JournalGrows(st.journal, Attempted(id, 0, 0, None, Pending, 0));
    var after := Dispatch(cfg, st, id, a);
    if FirstEndpoint(st, org).Some? {
      JournalGrows(st.journal, after.journal.last);
    }
  }

  lemma JournalGrows(j: Journal, e: Entry)
    ensures Then(j, e) != j
  {
    var grown := Then(j, e);
    assert grown.past < grown;
  }

  lemma OldestIsFirst(st: State, org: string)
    requires EndpointsTidy(st)
    ensures var first := FirstEndpoint(st, org);
            && (first.None? <==> forall e :: e in st.endpoints ==> st.endpoints[e].org != org)
            && (first.Some? ==>
                  && first.value.id in st.endpoints && st.endpoints[first.value.id] == first.value
                  && first.value.org == org
                  && forall e :: e in st.endpoints && st.endpoints[e].org == org ==> first.value.id <= e)
  {
    var list := ListEndpoints(st.endpoints, org, st.nextEndpoint);
    if list != [] {
      FirstIsStored(st, org);
    }
    forall e | e in st.endpoints && st.endpoints[e].org == org ensures list != [] && list[0].id <= e {
      StoredIsListed(st.endpoints, org, st.nextEndpoint, e);
      var k :| 0 <= k < |list| && list[k] == st.endpoints[e];
      if k > 0 {
        ListedOldestFirst(st.endpoints, org, st.nextEndpoint, 0, k);
      }
    }
  }

  // ---- A batch ----

  /** The event is due and there is an endpoint to send it to. */
  ghost predicate Sendable(st: State, id: nat) {
    && id in st.events && st.events[id].status == Pending && st.events[id].nextAttemptAt <= st.clock
    && var org, endpoint := st.events[id].org, st.events[id].endpoint;
       exists e :: e in st.endpoints && st.endpoints[e].org == org && (endpoint == None || endpoint == Some(e))
  }

  /** A batch goes on in order past each attempt whose two writes succeed or that has nothing to send; after any other
      it ends, and what is left of it stays as it was. */
  lemma BatchGoesOn(cfg: Config, st: State, batch: seq<nat>, attempts: seq<Attempt>, n: nat)
    requires n < |batch| == |attempts| && EndpointsTidy(DispatchAll(cfg, st, batch, attempts, n).0)
    ensures var (before, ok) := DispatchAll(cfg, st, batch, attempts, n);
            var (after, goesOn) := DispatchAll(cfg, st, batch, attempts, n + 1);
            if ok
            then after == Dispatch(cfg, before, batch[n], attempts[n])
                 && (goesOn <==> attempts[n].writes >= 2 || !Sendable(before, batch[n]))
            else after == before && !goesOn
  {
    var before := DispatchAll(cfg, st, batch, attempts, n).0;
    hide Dispatch, FirstEndpoint, EndpointsTidy;
    if batch[n] in before.events {
      OldestIsFirst(before, before.events[batch[n]].org);
    }
  }

  // ---- Over runs: DELIVERED means answered ----

  /** The last that happened to the event, a recorded attempt or a redelivery, was an attempt answered 2xx. */
  predicate LastAnswered2xx(j: Journal, id: nat) {
    j.Then?
    && (if j.last.Attempted? && j.last.event == id && j.last.writes > 0 then Answered2xx(j.last.response)
        else if j.last == Redelivered(id) then false
        else LastAnswered2xx(j.past, id))
  }

  ghost predicate AnswerKept(st: State, id: nat) {
    && (id in st.events ==> (st.events[id].status == Delivered <==> LastAnswered2xx(st.journal, id)))
    && (id >= st.nextEvent ==> id !in st.events && !LastAnswered2xx(st.journal, id))
  }

  lemma DispatchKeepsAnswer(cfg: Config, st: State, i: nat, a: Attempt, id: nat)
    requires AnswerKept(st, id) && (i in st.events ==> i < st.nextEvent)
    ensures AnswerKept(Dispatch(cfg, st, i, a), id)
  {
    SuccessIs2xx(a.response);
    hide Target, Booked, Succeeded, Answered2xx, RetrySchedule.NextAttempt;
  }

  lemma EnqueueKeepsAnswer(st: State, org: string, kind: string, data: string, saves: nat, id: nat)
    requires AnswerKept(st, id) && Tidy(st)
    ensures AnswerKept(Enqueue(st, org, kind, data, saves), id)
  {
    NothingStoredBeyond(st);
    var targets := Matching(st, org, kind);
    var n := Least(saves, |targets|);
    hide Matching, Tidy;
    FanOutEffect(st, targets, kind, data, n);
    if targets != [] && id >= st.nextEvent && id - st.nextEvent < n {
      FanOutCreates(st, targets, kind, data, n, id - st.nextEvent);
    }
  }

  lemma ActKeepsAnswer(cfg: Config, st: State, action: Action, id: nat)
    requires AnswerKept(st, id) && Tidy(st)
    ensures AnswerKept(Act(cfg, st, action), id)
  {
    NothingStoredBeyond(st);
    hide Matching, FirstEndpoint, ListEndpoints, ValidFilter, Dispatch, Enqueue, Answered2xx, Tidy;
    match action {
      case Enqueues(org, kind, data, saves) => EnqueueKeepsAnswer(st, org, kind, data, saves, id);
      case Purges(retention) => PurgeEffect(st, retention, |retention|);
      case Dispatches(i, a) => DispatchKeepsAnswer(cfg, st, i, a, id);
      case _ =>
    }
  }

  /** In every reachable state an event is DELIVERED exactly when the last recorded attempt at it, with no redelivery
      since, was answered with a status from 200 to 299. */
  lemma {:induction false} DeliveredIffAnswered(cfg: Config, clock: int, steps: seq<Step>, n: nat, id: nat)
    requires n <= |steps|
    ensures AnswerKept(After(cfg, clock, steps, n), id)
  {
    hide Act, Tidy;
    if n > 0 {
      DeliveredIffAnswered(cfg, clock, steps, n - 1, id);
      RunIsTidy(cfg, clock, steps, n - 1);
      ElapseKeepsViews(After(cfg, clock, steps, n - 1), steps[n - 1].elapsed);
      ActKeepsAnswer(cfg, Elapse(After(cfg, clock, steps, n - 1), steps[n - 1].elapsed), steps[n - 1].action, id);
    }
  }

  /** A redelivery of an organization's own event, whatever its status, makes it due at once and keeps its history; any
      other is refused. */
  lemma RedeliveryMakesDue(st: State, org: string, id: nat)
    ensures var after := Redeliver(st, org, id);
            if id in st.events && st.events[id].org == org
            then && after.events.Keys == st.events.Keys
                 && var e, e' := st.events[id], after.events[id];
                    && e'.status == Pending && e'.nextAttemptAt == after.clock == st.clock
                    && e'.attempts == e.attempts && e'.lastAttemptAt == e.lastAttemptAt && SameIdentity(e, e')
                    && (forall i :: i in st.events && i != id ==> after.events[i] == st.events[i])
                    && after.endpoints == st.endpoints && after.nextEvent == st.nextEvent
            else after == st
  {
  }

  // ---- Who is reached ----

  /** The event of a fan-out addressed to an endpoint. */
  predicate Addressed(st: State, after: State, id: nat, e: nat) {
    && id >= st.nextEvent && id in after.events && after.events[id].endpoint == Some(e)
    && after.events[id].status == Pending && after.events[id].nextAttemptAt == st.clock
  }

  /** An enqueue that succeeds addresses a new pending event to an endpoint exactly when that is one of the
      organization's, enabled, and its filter admits the type. Both hypotheses on the store hold in every run. */
  lemma ReachedIff(st: State, org: string, kind: string, data: string, saves: nat, e: nat)
    requires EndpointsTidy(st) && Tidy(st) && saves >= 1 && saves >= |Matching(st, org, kind)|
    ensures (exists id :: Addressed(st, Enqueue(st, org, kind, data, saves), id, e)) <==> Admits(st, org, kind, e)
  {
    var after, targets := Enqueue(st, org, kind, data, saves), Matching(st, org, kind);
    hide Matching, Enqueue, Tidy;
    if e in st.endpoints {
      MatchingAre(st, org, kind, st.endpoints[e]);
      if st.endpoints[e] in targets {
        var k :| 0 <= k < |targets| && targets[k] == st.endpoints[e];
        EnqueueFansOut(st, org, kind, data, saves, k);
        assert Addressed(st, after, st.nextEvent + k, e);
      }
    }
    if id :| Addressed(st, after, id, e) {
      AddressedIsSelected(st, org, kind, data, saves, id, e);
    }
  }

  predicate Admits(st: State, org: string, kind: string, e: nat) {
    && e in st.endpoints && st.endpoints[e].org == org && st.endpoints[e].status == Enabled
    && (st.endpoints[e].kinds == None || kind in st.endpoints[e].kinds.value)
  }

  lemma AddressedIsSelected(st: State, org: string, kind: string, data: string, saves: nat, id: nat, e: nat)
    requires EndpointsTidy(st) && Tidy(st) && Addressed(st, Enqueue(st, org, kind, data, saves), id, e)
    ensures e in st.endpoints && st.endpoints[e] in Matching(st, org, kind)
  {
    NothingStoredBeyond(st);
    var targets := Matching(st, org, kind);
    hide Matching, Tidy;
    if targets != [] {
      var n := Least(saves, |targets|);
      FanOutEffect(st, targets, kind, data, n);
      FanOutCreates(st, targets, kind, data, n, id - st.nextEvent);
      MatchingAre(st, org, kind, targets[id - st.nextEvent]);
    }
  }

  /** Enabling an endpoint of one's own makes it admit what its filter admits, with a clean counter; disabling or
      deleting it makes it admit nothing; an update makes it admit by the new filter, if it was enabled. */
  lemma SwitchDecidesReach(st: State, org: string, e: nat, kind: string, url: string, kinds: Option<seq<string>>)
    requires Owns(st, org, e)
    ensures var enabled := EnableEndpoint(st, org, e);
            && enabled.endpoints[e].failures == 0 && enabled.endpoints[e].url == st.endpoints[e].url
            && (Admits(enabled, org, kind, e) <==>
                  st.endpoints[e].kinds == None || kind in st.endpoints[e].kinds.value)
    ensures !Admits(DisableEndpoint(st, org, e), org, kind, e) && !Admits(DeleteEndpoint(st, org, e), org, kind, e)
    ensures DisableEndpoint(st, org, e).endpoints[e] == st.endpoints[e].(status := Disabled)
    ensures FilterIsValid(kinds) ==>
              var updated := UpdateEndpoint(st, org, e, url, true, kinds);
              && updated.endpoints[e] == st.endpoints[e].(url := url, kinds := kinds)
              && (Admits(updated, org, kind, e) <==>
                    st.endpoints[e].status == Enabled && (kinds == None || kind in kinds.value))
    ensures !FilterIsValid(kinds) ==> UpdateEndpoint(st, org, e, url, true, kinds) == st
    ensures UpdateEndpoint(st, org, e, url, false, kinds) == st
  {
  }

  /** Whatever is asked about an endpoint that is gone, or of another organization, changes nothing. */
  lemma OnlyOwnEndpoints(cfg: Config, st: State, org: string, e: nat, action: Action)
    requires e !in st.endpoints || st.endpoints[e].org != org
    requires || action == Enables(org, e) || action == Disables(org, e) || action == Deletes(org, e)
             || (action.Updates? && action.org == org && action.id == e)
    ensures Act(cfg, st, action) == st
  {
  }

  /** No filter, or a non-empty one of the three published event types. */
  predicate FilterIsValid(kinds: Option<seq<string>>) {
    kinds.Some? ==>
      && |kinds.value| > 0
      && forall i :: 0 <= i < |kinds.value| ==>
           || kinds.value[i] == "trigger.event"
           || kinds.value[i] == "connection.expired"
           || kinds.value[i] == "webhook.test"
  }

  /** An endpoint is created exactly for an absolute URL, a valid filter and an organization below the cap; it starts
      enabled, and nothing else changes. */
  lemma CreatedIff(cfg: Config, st: State, org: string, url: string, urlValid: bool, kinds: Option<seq<string>>)
    requires EndpointsTidy(st)
    ensures var after := CreateEndpoint(cfg, st, org, url, urlValid, kinds);
            if urlValid && FilterIsValid(kinds) && |Owned(st, org)| < cfg.cap
            then after.endpoints == st.endpoints[st.nextEndpoint :=
                   Endpoint(st.nextEndpoint, org, url, kinds, Enabled, 0, st.clock)]
                 && after.nextEndpoint == st.nextEndpoint + 1 && after.events == st.events
            else after == st
  {
    ListCounts(st.endpoints, org, st.nextEndpoint);
    assert Owned(st, org) == set e: nat | e < st.nextEndpoint && e in st.endpoints && st.endpoints[e].org == org;
  }

  function Owned(st: State, org: string): set<nat> {
    set e | e in st.endpoints && st.endpoints[e].org == org
  }

  lemma {:induction false} ListCounts(endpoints: map<nat, Endpoint>, org: string, n: nat)
    ensures |ListEndpoints(endpoints, org, n)| == |set e: nat | e < n && e in endpoints && endpoints[e].org == org|
  {
    var listed := set e: nat | e < n && e in endpoints && endpoints[e].org == org;
    if n == 0 {
      assert listed == {};
    } else {
      ListCounts(endpoints, org, n - 1);
      var before := set e: nat | e < n - 1 && e in endpoints && endpoints[e].org == org;
      if n - 1 in endpoints && endpoints[n - 1].org == org {
        assert listed == before + {n - 1};
      } else {
        assert listed == before;
      }
    }
  }

  /** A requested test is one new pending event for the organization's oldest endpoint, whatever its filter or
      status. */
  lemma TestIsSent(st: State, org: string)
    requires EndpointsTidy(st)
    ensures var after := SendTest(st, org);
            if Owned(st, org) == {} then after == st
            else && after.nextEvent == st.nextEvent + 1 && after.endpoints == st.endpoints
                 && after.events.Keys == st.events.Keys + {st.nextEvent}
                 && var e := after.events[st.nextEvent];
                    && e.endpoint.Some? && e.endpoint.value in Owned(st, org)
                    && e.kind == "webhook.test" && e.org == org
                    && (forall t :: t in Owned(st, org) ==> e.endpoint.value <= t)
                    && e.status == Pending && e.nextAttemptAt == st.clock && e.attempts == 0
  {
    OldestIsFirst(st, org);
    hide FirstEndpoint;
    assert FirstEndpoint(st, org).Some? ==> FirstEndpoint(st, org).value.id in Owned(st, org);
    assert forall t :: t in Owned(st, org) ==> t in st.endpoints && st.endpoints[t].org == org;
  }

  /** The compatibility alias changes the oldest endpoint's URL and nothing else, or creates a first endpoint for every
      event type, whatever the cap; a URL that is not absolute changes nothing. */
  lemma AliasSets(st: State, org: string, url: string, urlValid: bool)
    requires EndpointsTidy(st)
    ensures var after := SetEndpoint(st, org, url, urlValid);
            if !urlValid then after == st
            else if Owned(st, org) == {} then
              && after.nextEndpoint == st.nextEndpoint + 1 && after.events == st.events
              && after.endpoints == st.endpoints[st.nextEndpoint :=
                   Endpoint(st.nextEndpoint, org, url, None, Enabled, 0, st.clock)]
            else exists e :: e in Owned(st, org) && (forall t :: t in Owned(st, org) ==> e <= t)
                   && after == st.(endpoints := st.endpoints[e := st.endpoints[e].(url := url)])
  {
    OldestIsFirst(st, org);
    var first := FirstEndpoint(st, org);
    hide FirstEndpoint;
    if urlValid && first.Some? {
      assert first.value.id in Owned(st, org);
      assert forall t :: t in Owned(st, org) ==> t in st.endpoints && st.endpoints[t].org == org;
    }
  }
}

/** The webhook outbox: fan-out, attempts, redelivery, auto-disable and purge
    (server/internal/delivery/facade.go, types.go). Operations happen one at a time; two dispatches of one event are
    kept apart by the leases of LeaseClaim. Ids come from minters that never repeat, here counters. */
module Outbox {
  import opened Common
  import RetrySchedule

  const DAY := 24 * RetrySchedule.HOUR

  const KNOWN_KINDS: set<string> := {"trigger.event", "connection.expired", "webhook.test"}
  const TEST_KIND := "webhook.test"

  datatype EndpointStatus = Enabled | Disabled | DisabledAuto

  /** kinds is the event-type filter; None matches every type. */
  datatype Endpoint = Endpoint(
    id: nat, org: string, url: string, kinds: Option<seq<string>>,
    status: EndpointStatus, failures: nat, createdAt: int)

  datatype EventStatus = Pending | Delivered | Failed | NoEndpoint

  datatype Envelope = Envelope(id: nat, kind: string, createdAt: int, data: string)

  datatype Event = Event(
    id: nat, org: string, endpoint: Option<nat>, kind: string, body: Envelope,
    status: EventStatus, attempts: nat, nextAttemptAt: int, lastAttemptAt: Option<int>, createdAt: int)

  predicate Terminal(s: EventStatus) { s != Pending }

  predicate MatchesKind(e: Endpoint, kind: string) {
    e.kinds.None? || kind in e.kinds.value
  }

  predicate ValidFilter(kinds: Option<seq<string>>) {
    kinds.Some? ==> |kinds.value| > 0 && forall i :: 0 <= i < |kinds.value| ==> kinds.value[i] in KNOWN_KINDS
  }

  /** What happened, in order. writes says how many of an attempt's two writes, event then endpoint, succeeded. */
  datatype Entry =
    | Attempted(event: nat, endpoint: nat, at: int, response: Option<int>, outcome: EventStatus, writes: nat)
    | Redelivered(event: nat)
    | Renewed(endpoint: nat)

  datatype Journal = Start | Then(past: Journal, last: Entry)

  datatype Config = Config(cap: nat, threshold: nat)

  datatype State = State(
    endpoints: map<nat, Endpoint>, events: map<nat, Event>, nextEndpoint: nat, nextEvent: nat,
    clock: int, journal: Journal)

  // ---- Endpoints ----

  /** The endpoints of one organization with an id below n, oldest first. */
  function ListEndpoints(endpoints: map<nat, Endpoint>, org: string, n: nat): seq<Endpoint> {
    if n == 0 then []
    else ListEndpoints(endpoints, org, n - 1)
         + (if n - 1 in endpoints && endpoints[n - 1].org == org then [endpoints[n - 1]] else [])
  }

  function FirstEndpoint(st: State, org: string): Option<Endpoint> {
    var list := ListEndpoints(st.endpoints, org, st.nextEndpoint);
    if list == [] then None else Some(list[0])
  }

  predicate Owns(st: State, org: string, id: nat) {
    id in st.endpoints && st.endpoints[id].org == org
  }

  function AddEndpoint(st: State, org: string, url: string, kinds: Option<seq<string>>): State {
    st.(endpoints := st.endpoints[st.nextEndpoint := Endpoint(st.nextEndpoint, org, url, kinds, Enabled, 0, st.clock)],
        nextEndpoint := st.nextEndpoint + 1,
        journal := Then(st.journal, Renewed(st.nextEndpoint)))
  }

  function CreateEndpoint(cfg: Config, st: State, org: string, url: string, urlValid: bool,
                          kinds: Option<seq<string>>): State
  {
    if urlValid && ValidFilter(kinds) && |ListEndpoints(st.endpoints, org, st.nextEndpoint)| < cfg.cap
    then AddEndpoint(st, org, url, kinds) else st
  }

  function SetEndpoint(st: State, org: string, url: string, urlValid: bool): State {
    var first := FirstEndpoint(st, org);
    if !urlValid then st
    else if first.Some? then st.(endpoints := st.endpoints[first.value.id := first.value.(url := url)])
    else AddEndpoint(st, org, url, None)
  }

  function UpdateEndpoint(st: State, org: string, id: nat, url: string, urlValid: bool,
                          kinds: Option<seq<string>>): State
  {
    if urlValid && ValidFilter(kinds) && Owns(st, org, id)
    then st.(endpoints := st.endpoints[id := st.endpoints[id].(url := url, kinds := kinds)]) else st
  }

  function DeleteEndpoint(st: State, org: string, id: nat): State {
    if Owns(st, org, id) then st.(endpoints := st.endpoints - {id}) else st
  }

  function EnableEndpoint(st: State, org: string, id: nat): State {
    if Owns(st, org, id) then
      st.(endpoints := st.endpoints[id := st.endpoints[id].(status := Enabled, failures := 0)],
          journal := Then(st.journal, Renewed(id)))
    else st
  }

  function DisableEndpoint(st: State, org: string, id: nat): State {
    if Owns(st, org, id) then st.(endpoints := st.endpoints[id := st.endpoints[id].(status := Disabled)]) else st
  }

  // ---- Enqueueing ----

  function Selects(kind: string): Endpoint -> bool {
    (e: Endpoint) => e.status == Enabled && MatchesKind(e, kind)
  }

  function Matching(st: State, org: string, kind: string): seq<Endpoint> {
    Filter(ListEndpoints(st.endpoints, org, st.nextEndpoint), Selects(kind))
  }

  function NewEvent(id: nat, org: string, endpoint: Option<nat>, kind: string, data: string, now: int): Event {
    Event(id, org, endpoint, kind, Envelope(id, kind, now, data),
          if endpoint.Some? then Pending else NoEndpoint, 0, now, None, now)
  }

  function AddEvent(st: State, org: string, endpoint: Option<nat>, kind: string, data: string): State {
    st.(events := st.events[st.nextEvent := NewEvent(st.nextEvent, org, endpoint, kind, data, st.clock)],
        nextEvent := st.nextEvent + 1)
  }

  /** One pending event for each of the first n targets, in order. */
  function FanOut(st: State, targets: seq<Endpoint>, kind: string, data: string, n: nat): State
    requires n <= |targets|
  {
    if n == 0 then st
    else AddEvent(FanOut(st, targets, kind, data, n - 1), targets[n - 1].org, Some(targets[n - 1].id), kind, data)
  }

  function Least(a: nat, b: nat): nat { if a <= b then a else b }

  /** saves is how many event writes the store takes before it fails. */
  function Enqueue(st: State, org: string, kind: string, data: string, saves: nat): State {
    var targets := Matching(st, org, kind);
    if targets != [] then FanOut(st, targets, kind, data, Least(saves, |targets|))
    else if saves > 0 then AddEvent(st, org, None, kind, data)
    else st
  }

  function SendTest(st: State, org: string): State {
    var first := FirstEndpoint(st, org);
    if first.Some? then AddEvent(st, first.value.org, Some(first.value.id), TEST_KIND, "") else st
  }

  function Redeliver(st: State, org: string, id: nat): State {
    if id in st.events && st.events[id].org == org then
      st.(events := st.events[id := st.events[id].(status := Pending, nextAttemptAt := st.clock)],
          journal := Then(st.journal, Redelivered(id)))
    else st
  }

  // ---- Dispatching ----

  predicate Due(st: State, id: nat) {
    id in st.events && st.events[id].status == Pending && st.events[id].nextAttemptAt <= st.clock
  }

  function Target(st: State, e: Event): Option<Endpoint> {
    if e.endpoint.None? then FirstEndpoint(st, e.org)
    else if Owns(st, e.org, e.endpoint.value) then Some(st.endpoints[e.endpoint.value])
    else None
  }

  /** What one attempt came to: the response's status code, or None when nothing came back; how long it took; the
      jitter drawn if it is rescheduled; and how many of its writes succeeded. */
  datatype Attempt = Attempt(response: Option<int>, took: nat, jitter: real, writes: nat)

  predicate Succeeded(response: Option<int>) {
    response.Some? && 200 <= response.value < 300
  }

  function AttemptOutcome(e: Event, response: Option<int>, now: int, jitter: real): Event {
    var updated := e.(lastAttemptAt := Some(now), attempts := e.attempts + 1);
    if Succeeded(response) then updated.(status := Delivered)
    else if RetrySchedule.IsExhausted(updated.attempts) then updated.(status := Failed)
    else updated.(status := Pending, nextAttemptAt := RetrySchedule.NextAttempt(now, updated.attempts, jitter))
  }

  function Booked(cfg: Config, e: Endpoint, outcome: EventStatus): Endpoint {
    match outcome
    case Delivered => e.(failures := 0)
    case Failed =>
      e.(failures := e.failures + 1, status := if e.failures + 1 >= cfg.threshold then DisabledAuto else e.status)
    case _ => e
  }

  function Dispatch(cfg: Config, st: State, id: nat, a: Attempt): State {
    if !Due(st, id) || Target(st, st.events[id]).None? then st
    else
      var endpoint, now := Target(st, st.events[id]).value, st.clock + a.took;
      var updated := AttemptOutcome(st.events[id], a.response, now, a.jitter);
      st.(clock := now,
          events := if a.writes >= 1 then st.events[id := updated] else st.events,
          endpoints := if a.writes >= 2
                       then st.endpoints[endpoint.id := Booked(cfg, endpoint, updated.status)] else st.endpoints,
          journal := Then(st.journal, Attempted(id, endpoint.id, now, a.response, updated.status, a.writes)))
  }

  predicate DispatchFails(st: State, id: nat, a: Attempt) {
    Due(st, id) && Target(st, st.events[id]).Some? && a.writes < 2
  }

  /** Dispatches the first n events of a batch in order, up to the first whose writes fail. */
  function DispatchAll(cfg: Config, st: State, batch: seq<nat>, attempts: seq<Attempt>, n: nat): (State, bool)
    requires n <= |batch| == |attempts|
  {
    if n == 0 then (st, true)
    else
      var (before, ok) := DispatchAll(cfg, st, batch, attempts, n - 1);
      if !ok then (before, false)
      else (Dispatch(cfg, before, batch[n - 1], attempts[n - 1]), !DispatchFails(before, batch[n - 1], attempts[n - 1]))
  }

  // ---- Purging ----

  predicate Purgeable(e: Event, org: string, cutoff: int) {
    e.org == org && e.createdAt < cutoff && Terminal(e.status)
  }

  function PurgeOrg(st: State, org: string, cutoff: int): State {
    st.(events := map id | id in st.events && !Purgeable(st.events[id], org, cutoff) :: st.events[id])
  }

  /** Each organization with its retention in days; none or less keeps everything. */
  function Purge(st: State, retention: seq<(string, int)>, n: nat): State
    requires n <= |retention|
  {
    if n == 0 then st
    else
      var before, (org, days) := Purge(st, retention, n - 1), retention[n - 1];
      if days <= 0 then before else PurgeOrg(before, org, before.clock - days * DAY)
  }

  // ---- The facade ----

  class DeliveryFacade {
    const cfg: Config
    var endpoints: map<nat, Endpoint>
    var events: map<nat, Event>
    var nextEndpoint: nat
    var nextEvent: nat
    var clock: int
    var journal: Journal

    constructor (cfg: Config, clock: int)
      ensures this.cfg == cfg && Stored() == Empty(clock)
    {
      this.cfg, this.clock := cfg, clock;
      endpoints, events, nextEndpoint, nextEvent, journal := map[], map[], 0, 0, Start;
    }

    function Stored(): State
      reads this
    {
      State(endpoints, events, nextEndpoint, nextEvent, clock, journal)
    }

    method SaveNewEvent(org: string, endpoint: Option<nat>, kind: string, data: string) returns (id: nat)
      modifies this`events, this`nextEvent
      ensures id == old(nextEvent) && Stored() == AddEvent(old(Stored()), org, endpoint, kind, data)
    {
      id := nextEvent;
      nextEvent := nextEvent + 1;
      events := events[id := NewEvent(id, org, endpoint, kind, data, clock)];
    }

    method MatchingEnabledEndpoints(list: seq<Endpoint>, kind: string) returns (matches: seq<Endpoint>)
      ensures matches == Filter(list, Selects(kind))
    {
      matches := [];
      for i := 0 to |list|
        invariant matches == Filter(list[..i], Selects(kind))
      {
        FilterStep(list, i, Selects(kind));
        if list[i].status == Enabled && MatchesKind(list[i], kind) {
          matches := matches + [list[i]];
        }
      }
      assert list[..|list|] == list;
    }

    method EnqueueEvent(org: string, kind: string, data: string, saves: nat) returns (ids: seq<nat>, ok: bool)
      modifies this`events, this`nextEvent
      ensures Stored() == Enqueue(old(Stored()), org, kind, data, saves)
      ensures ok <==> saves >= 1 && saves >= |Matching(old(Stored()), org, kind)|
      ensures ok ==> |ids| == nextEvent - old(nextEvent) && forall i :: 0 <= i < |ids| ==> ids[i] == old(nextEvent) + i
    {
      ids := [];
      var targets := MatchingEnabledEndpoints(ListEndpoints(endpoints, org, nextEndpoint), kind);
      if targets == [] {
        if saves == 0 {
          return [], false;
        }
        var id := SaveNewEvent(org, None, kind, data);
        return [id], true;
      }
      for i := 0 to |targets|
        invariant i <= saves && |ids| == i && nextEvent == old(nextEvent) + i
        invariant forall j :: 0 <= j < i ==> ids[j] == old(nextEvent) + j
        invariant Stored() == FanOut(old(Stored()), targets, kind, data, i)
      {
        if i == saves {
          return [], false;
        }
        var id := SaveNewEvent(targets[i].org, Some(targets[i].id), kind, data);
        ids := ids + [id];
      }
      ok := true;
    }

    method SendTestEvent(org: string) returns (ok: bool)
      modifies this`events, this`nextEvent
      ensures Stored() == SendTest(old(Stored()), org)
      ensures ok <==> FirstEndpoint(old(Stored()), org).Some?
    {
      var first := FirstEndpoint(Stored(), org);
      if first.None? {
        return false;
      }
      var id := SaveNewEvent(first.value.org, Some(first.value.id), TEST_KIND, "");
      ok := true;
    }

    method RedeliverEvent(org: string, id: nat) returns (ok: bool)
      modifies this`events, this`journal
      ensures Stored() == Redeliver(old(Stored()), org, id)
      ensures ok <==> id in old(events) && old(events)[id].org == org
    {
      if id !in events || events[id].org != org {
        return false;
      }
      events := events[id := events[id].(status := Pending, nextAttemptAt := clock)];
      journal := Then(journal, Redelivered(id));
      ok := true;
    }

    method ApplyAutoDisable(endpoint: Endpoint, outcome: EventStatus)
      modifies this`endpoints
      ensures endpoints == if Booked(cfg, endpoint, outcome) == endpoint then old(endpoints)
                           else old(endpoints)[endpoint.id := Booked(cfg, endpoint, outcome)]
    {
      if outcome == Delivered {
        if endpoint.failures != 0 {
          endpoints := endpoints[endpoint.id := endpoint.(failures := 0)];
        }
      } else if outcome == Failed {
        var updated := endpoint.(failures := endpoint.failures + 1);
        if updated.failures >= cfg.threshold {
          updated := updated.(status := DisabledAuto);
        }
        endpoints := endpoints[endpoint.id := updated];
      }
    }

    method DispatchOne(id: nat, a: Attempt) returns (ok: bool)
      requires Due(Stored(), id)
      requires Keyed(endpoints)
      modifies this`endpoints, this`events, this`clock, this`journal
      ensures Stored() == Dispatch(cfg, old(Stored()), id, a)
      ensures ok <==> !DispatchFails(old(Stored()), id, a)
    {
      var target := Target(Stored(), events[id]);
      if target.None? {
        return true;
      }
      TargetIsStored(Stored(), events[id]);
      clock := clock + a.took;
      var updated := AttemptOutcome(events[id], a.response, clock, a.jitter);
      journal := Then(journal, Attempted(id, target.value.id, clock, a.response, updated.status, a.writes));
      if a.writes < 1 {
        return false;
      }
      events := events[id := updated];
      if a.writes < 2 {
        return false;
      }
      assert endpoints[target.value.id := target.value] == endpoints;
      ApplyAutoDisable(target.value, updated.status);
      ok := true;
    }

    /** Attempts every event of a claimed batch once, in order. */
    method DispatchOnce(batch: seq<nat>, attempts: seq<Attempt>) returns (ok: bool)
      requires |batch| == |attempts|
      requires forall i :: 0 <= i < |batch| ==> Due(Stored(), batch[i])
      requires forall i, j :: 0 <= i < j < |batch| ==> batch[i] != batch[j]
      requires Keyed(endpoints)
      modifies this`endpoints, this`events, this`clock, this`journal
      ensures (Stored(), ok) == DispatchAll(cfg, old(Stored()), batch, attempts, |batch|)
    {
      ok := true;
      for i := 0 to |batch|
        invariant ok
        invariant (Stored(), true) == DispatchAll(cfg, old(Stored()), batch, attempts, i)
        invariant forall j :: i <= j < |batch| ==> Due(Stored(), batch[j])
        invariant Keyed(endpoints)
      {
        ghost var before := Stored();
        ok := DispatchOne(batch[i], attempts[i]);
        if !ok {
          FailureStops(cfg, old(Stored()), batch, attempts, i + 1, |batch|);
          return;
        }
        DispatchKeepsOthersDue(cfg, before, batch[i], attempts[i]);
      }
    }

    method PurgeOnce(retention: seq<(string, int)>)
      modifies this`events
      ensures Stored() == Purge(old(Stored()), retention, |retention|)
    {
      for i := 0 to |retention|
        invariant Stored() == Purge(old(Stored()), retention, i)
      {
        var (org, days) := retention[i];
        if days > 0 {
          var cutoff := clock - days * DAY;
          events := map id | id in events && !Purgeable(events[id], org, cutoff) :: events[id];
        }
      }
    }

    method SaveNewEndpoint(org: string, url: string, kinds: Option<seq<string>>)
      modifies this`endpoints, this`nextEndpoint, this`journal
      ensures Stored() == AddEndpoint(old(Stored()), org, url, kinds)
    {
      endpoints := endpoints[nextEndpoint := Endpoint(nextEndpoint, org, url, kinds, Enabled, 0, clock)];
      journal := Then(journal, Renewed(nextEndpoint));
      nextEndpoint := nextEndpoint + 1;
    }

    method Create(org: string, url: string, urlValid: bool, kinds: Option<seq<string>>) returns (ok: bool)
      modifies this`endpoints, this`nextEndpoint, this`journal
      ensures Stored() == CreateEndpoint(cfg, old(Stored()), org, url, urlValid, kinds)
      ensures ok <==> nextEndpoint == old(nextEndpoint) + 1
    {
      if !urlValid || !ValidFilter(kinds) || |ListEndpoints(endpoints, org, nextEndpoint)| >= cfg.cap {
        return false;
      }
      SaveNewEndpoint(org, url, kinds);
      ok := true;
    }

    method Set(org: string, url: string, urlValid: bool) returns (ok: bool)
      modifies this`endpoints, this`nextEndpoint, this`journal
      ensures Stored() == SetEndpoint(old(Stored()), org, url, urlValid)
      ensures ok == urlValid
    {
      if !urlValid {
        return false;
      }
      var first := FirstEndpoint(Stored(), org);
      if first.Some? {
        endpoints := endpoints[first.value.id := first.value.(url := url)];
      } else {
        SaveNewEndpoint(org, url, None);
      }
      ok := true;
    }

    method Update(org: string, id: nat, url: string, urlValid: bool, kinds: Option<seq<string>>) returns (ok: bool)
      modifies this`endpoints
      ensures Stored() == UpdateEndpoint(old(Stored()), org, id, url, urlValid, kinds)
      ensures ok <==> urlValid && ValidFilter(kinds) && Owns(old(Stored()), org, id)
    {
      if !urlValid || !ValidFilter(kinds) || id !in endpoints || endpoints[id].org != org {
        return false;
      }
      endpoints := endpoints[id := endpoints[id].(url := url, kinds := kinds)];
      ok := true;
    }

    method Delete(org: string, id: nat) returns (ok: bool)
      modifies this`endpoints
      ensures Stored() == DeleteEndpoint(old(Stored()), org, id)
      ensures ok <==> Owns(old(Stored()), org, id)
    {
      if id !in endpoints || endpoints[id].org != org {
        return false;
      }
      endpoints := endpoints - {id};
      ok := true;
    }

    method Enable(org: string, id: nat) returns (ok: bool)
      modifies this`endpoints, this`journal
      ensures Stored() == EnableEndpoint(old(Stored()), org, id)
      ensures ok <==> Owns(old(Stored()), org, id)
    {
      if id !in endpoints || endpoints[id].org != org {
        return false;
      }
      endpoints := endpoints[id := endpoints[id].(status := Enabled, failures := 0)];
      journal := Then(journal, Renewed(id));
      ok := true;
    }

    method Disable(org: string, id: nat) returns (ok: bool)
      modifies this`endpoints
      ensures Stored() == DisableEndpoint(old(Stored()), org, id)
      ensures ok <==> Owns(old(Stored()), org, id)
    {
      if id !in endpoints || endpoints[id].org != org {
        return false;
      }
      endpoints := endpoints[id := endpoints[id].(status := Disabled)];
      ok := true;
    }
  }

  ghost predicate Keyed(endpoints: map<nat, Endpoint>) {
    forall e :: e in endpoints ==> endpoints[e].id == e
  }

  lemma {:induction false} ListedIsStored(endpoints: map<nat, Endpoint>, org: string, n: nat, i: nat)
    requires Keyed(endpoints) && i < |ListEndpoints(endpoints, org, n)|
    ensures var e := ListEndpoints(endpoints, org, n)[i];
            e.id < n && e.id in endpoints && endpoints[e.id] == e && e.org == org
  {
    var front := ListEndpoints(endpoints, org, n - 1);
    if i < |front| {
      ListedIsStored(endpoints, org, n - 1, i);
      assert front[i] == ListEndpoints(endpoints, org, n)[i];
    } else {
      assert n - 1 in endpoints && endpoints[n - 1].org == org;
      assert endpoints[n - 1].id == n - 1;
    }
  }

  lemma {:induction false} StoredIsListed(endpoints: map<nat, Endpoint>, org: string, n: nat, e: nat)
    requires e < n && e in endpoints && endpoints[e].org == org
    ensures endpoints[e] in ListEndpoints(endpoints, org, n)
  {
    if e < n - 1 {
      StoredIsListed(endpoints, org, n - 1, e);
    }
  }

  lemma {:induction false} ListedOldestFirst(endpoints: map<nat, Endpoint>, org: string, n: nat, i: nat, j: nat)
    requires Keyed(endpoints) && i < j < |ListEndpoints(endpoints, org, n)|
    ensures ListEndpoints(endpoints, org, n)[i].id < ListEndpoints(endpoints, org, n)[j].id
  {
    var front := ListEndpoints(endpoints, org, n - 1);
    ListedIsStored(endpoints, org, n - 1, i);
    assert front[i] == ListEndpoints(endpoints, org, n)[i];
    if j < |front| {
      ListedOldestFirst(endpoints, org, n - 1, i, j);
      assert front[j] == ListEndpoints(endpoints, org, n)[j];
    } else {
      assert n - 1 in endpoints && endpoints[n - 1].id == n - 1;
    }
  }

  lemma TargetIsStored(st: State, e: Event)
    requires Keyed(st.endpoints) && Target(st, e).Some?
    ensures var target := Target(st, e).value;
            target.id in st.endpoints && st.endpoints[target.id] == target && target.org == e.org
  {
    if e.endpoint.None? {
      ListedIsStored(st.endpoints, e.org, st.nextEndpoint, 0);
    } else {
      assert st.endpoints[e.endpoint.value].id == e.endpoint.value;
    }
  }

  lemma {:induction false} FailureStops(cfg: Config, st: State, batch: seq<nat>, attempts: seq<Attempt>, i: nat, n: nat)
    requires i <= n <= |batch| == |attempts| && !DispatchAll(cfg, st, batch, attempts, i).1
    ensures DispatchAll(cfg, st, batch, attempts, n) == DispatchAll(cfg, st, batch, attempts, i)
  {
    hide Dispatch, DispatchFails;
    if i < n {
      FailureStops(cfg, st, batch, attempts, i, n - 1);
    }
  }

  lemma DispatchKeepsOthersDue(cfg: Config, st: State, id: nat, a: Attempt)
    ensures forall other: nat :: other != id && Due(st, other) ==> Due(Dispatch(cfg, st, id, a), other)
  {
    hide Target, AttemptOutcome, Booked;
  }

  function Empty(clock: int): State { State(map[], map[], 0, 0, clock, Start) }
}

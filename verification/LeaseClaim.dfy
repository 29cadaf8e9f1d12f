/** The lease claim every background worker shares, and what it means for two dispatches of one event
    (server/internal/db/claim.go, delivery/facade.go DispatchOnce, delivery/driven/bun/repository.go SaveEvent). */
module LeaseClaim {
  import opened Common

  /** dueAt is None for an event in a terminal status, Some(t) for a pending one whose next attempt is at t. */
  datatype Row = Row(createdAt: int, dueAt: Option<int>, lease: Option<int>)

  type Table = map<string, Row>

  predicate Free(r: Row, now: int) {
    r.lease.None? || r.lease.value < now
  }

  /** matches holds the ids that satisfy the caller's own due-row condition. */
  predicate Eligible(rows: Table, matches: set<string>, id: string, now: int) {
    id in rows && id in matches && Free(rows[id], now)
  }

  /** No lease, or one that has run out. */
  predicate Unleased(lease: Option<int>, now: int) { lease == None || lease.value < now }

  predicate Distinct(ids: seq<string>) {
    forall i, j :: 0 <= i < j < |ids| ==> ids[i] != ids[j]
  }

  /** The rows one claim may return. locked holds rows another claim is updating at this moment, which are skipped. */
  ghost predicate ValidBatch(rows: Table, matches: set<string>, locked: set<string>, now: int, limit: nat,
                             batch: seq<string>)
  {
    && |batch| <= limit && Distinct(batch)
    && (forall i :: 0 <= i < |batch| ==> Eligible(rows, matches, batch[i], now) && batch[i] !in locked)
    && forall id :: Eligible(rows, matches, id, now) && id !in locked && id !in batch ==>
         |batch| == limit && forall i :: 0 <= i < |batch| ==>
           batch[i] in rows && rows[batch[i]].createdAt <= rows[id].createdAt
  }

  function Leased(rows: Table, batch: seq<string>, until: int): Table {
    map id | id in rows :: if id in batch then rows[id].(lease := Some(until)) else rows[id]
  }

  /** order lists every row, oldest first, with ties in any order. */
  ghost predicate OldestFirst(rows: Table, order: seq<string>) {
    && (forall id :: id in rows <==> id in order)
    && Distinct(order)
    && forall i, j :: 0 <= i < j < |order| && order[i] in rows && order[j] in rows ==>
         rows[order[i]].createdAt <= rows[order[j]].createdAt
  }

  class LeaseTable {
    var rows: Table

    constructor (rows: Table)
      ensures this.rows == rows
    {
      this.rows := rows;
    }

    /** One atomic UPDATE: leases the oldest free due rows, up to the limit, and returns them. */
    method ClaimDue(matches: set<string>, locked: set<string>, now: int, ttl: int, limit: nat, order: seq<string>)
      returns (batch: seq<string>)
      requires OldestFirst(rows, order)
      modifies this
      ensures ValidBatch(old(rows), matches, locked, now, limit, batch)
      ensures rows == Leased(old(rows), batch, now + ttl)
      ensures forall id :: id in batch ==> id in old(rows) && Unleased(old(rows)[id].lease, now)
      ensures forall id :: id in old(rows) && id in matches && id !in locked && Unleased(old(rows)[id].lease, now) ==>
                id in batch || |batch| == limit
    {
      batch := [];
      var i := 0;
      while i < |order| && |batch| < limit
        invariant i <= |order| && |batch| <= limit && Distinct(batch)
        invariant forall k :: 0 <= k < |batch| ==>
          Eligible(rows, matches, batch[k], now) && batch[k] !in locked && batch[k] in order[..i]
        invariant forall k :: 0 <= k < i && Eligible(rows, matches, order[k], now) && order[k] !in locked ==>
                    order[k] in batch
      {
        if Eligible(rows, matches, order[i], now) && order[i] !in locked {
          batch := batch + [order[i]];
        }
        i := i + 1;
      }
      OldestLeft(rows, matches, locked, now, limit, order, i, batch);
      rows := Leased(rows, batch, now + ttl);
    }
  }

  /** What is left after scanning i rows of the order is no older than anything taken. */
  lemma OldestLeft(rows: Table, matches: set<string>, locked: set<string>, now: int, limit: nat,
                   order: seq<string>, i: nat, batch: seq<string>)
    requires OldestFirst(rows, order) && i <= |order| && |batch| <= limit && Distinct(batch)
    requires forall k :: 0 <= k < |batch| ==>
      Eligible(rows, matches, batch[k], now) && batch[k] !in locked && batch[k] in order[..i]
    requires forall k :: 0 <= k < i && Eligible(rows, matches, order[k], now) && order[k] !in locked ==>
               order[k] in batch
    requires i < |order| ==> |batch| == limit
    ensures ValidBatch(rows, matches, locked, now, limit, batch)
  {
    forall id | Eligible(rows, matches, id, now) && id !in locked && id !in batch
      ensures |batch| == limit && forall k :: 0 <= k < |batch| ==> rows[batch[k]].createdAt <= rows[id].createdAt
    {
      assert id in order;
      var p :| 0 <= p < |order| && order[p] == id;
      assert i <= p;
      forall k | 0 <= k < |batch| ensures rows[batch[k]].createdAt <= rows[id].createdAt {
        var scanned := order[..i];
        assert batch[k] in scanned;
        var q :| 0 <= q < |scanned| && scanned[q] == batch[k];
        assert order[q] == batch[k];
      }
    }
  }

  // ---- Dispatches of leased events ----

  /** One dispatch of one claimed event. end is when its holder let go of it. */
  datatype Dispatch = Dispatch(id: string, at: int, until: int, end: Option<int>)

  datatype Queue = Queue(rows: Table, log: seq<Dispatch>, clock: int)

  /** Saves: a dispatch ends by writing the event back, which always clears the lease, whoever holds it by then.
      Abandons: it ends without a write. Redelivers: a manual redelivery, which also clears the lease.
      Purges: deletes one terminal event. */
  datatype Action =
    | Enqueues(id: string, dueAt: Option<int>)
    | Claims(batch: seq<string>, locked: set<string>, ttl: nat, limit: nat)
    | Saves(k: nat, dueAt: Option<int>)
    | Abandons(k: nat)
    | Redelivers(id: string)
    | Purges(id: string)

  datatype Step = Step(elapsed: nat, action: Action)

  function DueIds(rows: Table, now: int): set<string> {
    set id | id in rows && rows[id].dueAt.Some? && rows[id].dueAt.value <= now
  }

  predicate Running(q: Queue, k: nat) { k < |q.log| && q.log[k].end.None? }

  /** Running, and its lease has not run out. */
  predicate Live(q: Queue, k: nat) { Running(q, k) && q.clock <= q.log[k].until }

  function Written(rows: Table, id: string, dueAt: Option<int>, now: int): Table {
    rows[id := Row(if id in rows then rows[id].createdAt else now, dueAt, None)]
  }

  function Started(batch: seq<string>, at: int, until: int): seq<Dispatch> {
    seq(|batch|, i requires 0 <= i < |batch| => Dispatch(batch[i], at, until, None))
  }

  /** A disabled action changes nothing. */
  ghost function Act(q: Queue, action: Action): Queue {
    match action
    case Enqueues(id, dueAt) => if id in q.rows then q else q.(rows := Written(q.rows, id, dueAt, q.clock))
    case Claims(batch, locked, ttl, limit) =>
      if ValidBatch(q.rows, DueIds(q.rows, q.clock), locked, q.clock, limit, batch) then
        q.(rows := Leased(q.rows, batch, q.clock + ttl), log := q.log + Started(batch, q.clock, q.clock + ttl))
      else q
    case Saves(k, dueAt) =>
      if Running(q, k) then
        q.(rows := Written(q.rows, q.log[k].id, dueAt, q.clock), log := q.log[k := q.log[k].(end := Some(q.clock))])
      else q
    case Abandons(k) => if Running(q, k) then q.(log := q.log[k := q.log[k].(end := Some(q.clock))]) else q
    case Redelivers(id) => if id in q.rows then q.(rows := Written(q.rows, id, Some(q.clock), q.clock)) else q
    case Purges(id) => if id in q.rows && q.rows[id].dueAt.None? then q.(rows := q.rows - {id}) else q
  }

  function Elapse(q: Queue, d: nat): Queue { q.(clock := q.clock + d) }

  ghost function After(q: Queue, steps: seq<Step>, n: nat): Queue
    requires n <= |steps|
  {
    if n == 0 then q else Act(Elapse(After(q, steps, n - 1), steps[n - 1].elapsed), steps[n - 1].action)
  }

  function Fresh(clock: int): Queue { Queue(map[], [], clock) }

  // ---- Leases nobody clears ----

  /** The action writes the lease of id, and is not a claim. */
  predicate Clears(q: Queue, action: Action, id: string) {
    match action
    case Saves(k, _) => Running(q, k) && q.log[k].id == id
    case Redelivers(other) => other == id
    case Purges(other) => other == id
    case _ => false
  }

  ghost predicate NeverCleared(q: Queue, steps: seq<Step>, n: nat, id: string)
    requires n <= |steps|
  {
    n == 0 || (NeverCleared(q, steps, n - 1, id)
               && !Clears(Elapse(After(q, steps, n - 1), steps[n - 1].elapsed), steps[n - 1].action, id))
  }

  /** The row of id carries the lease of its latest claim, and each claim came after the lease before it. */
  ghost predicate LeaseHeld(q: Queue, id: string) {
    && (forall k :: 0 <= k < |q.log| && q.log[k].id == id ==>
          && q.log[k].at <= q.log[k].until && id in q.rows
          && q.rows[id].lease.Some? && q.log[k].until <= q.rows[id].lease.value)
    && forall i, j :: 0 <= i < j < |q.log| && q.log[i].id == id && q.log[j].id == id ==> q.log[i].until < q.log[j].at
  }

  lemma ActKeepsLeaseHeld(q: Queue, action: Action, id: string)
    requires LeaseHeld(q, id) && !Clears(q, action, id)
    ensures LeaseHeld(Act(q, action), id)
  {
    if action.Claims? {
      ClaimKeepsLeaseHeld(q, action.batch, action.locked, action.ttl, action.limit, id);
    }
  }

  lemma ClaimKeepsLeaseHeld(q: Queue, batch: seq<string>, locked: set<string>, ttl: nat, limit: nat, id: string)
    requires LeaseHeld(q, id)
    ensures LeaseHeld(Act(q, Claims(batch, locked, ttl, limit)), id)
  {
    if ValidBatch(q.rows, DueIds(q.rows, q.clock), locked, q.clock, limit, batch) {
      assert forall i :: 0 <= i < |batch| ==> Free(q.rows[batch[i]], q.clock);
    }
  }

  /** As long as the lease of an event is written only by claims, the lease windows of its claims never overlap,
      whichever workers claim it and in whatever order. */
  lemma {:induction false} LeaseWindowsDisjoint(clock: int, steps: seq<Step>, n: nat, id: string, i: nat, j: nat)
    requires n <= |steps| && NeverCleared(Fresh(clock), steps, n, id)
    ensures LeaseHeld(After(Fresh(clock), steps, n), id)
    ensures var log := After(Fresh(clock), steps, n).log;
            i < j < |log| && log[i].id == id && log[j].id == id ==>
              log[i].at <= log[i].until < log[j].at <= log[j].until
  {
    if n > 0 {
      LeaseWindowsDisjoint(clock, steps, n - 1, id, i, j);
      ActKeepsLeaseHeld(Elapse(After(Fresh(clock), steps, n - 1), steps[n - 1].elapsed), steps[n - 1].action, id);
    }
  }

  // ---- Dispatches that end within their lease ----

  /** Another dispatch than k of the same event is running within its lease. */
  predicate OtherLive(q: Queue, id: string, k: nat) {
    exists j: nat :: j < |q.log| && j != k && q.log[j].id == id && Live(q, j)
  }

  /** Each live dispatch of the event is protected by its own lease. */
  ghost predicate Protected(q: Queue, id: string) {
    forall k: nat :: Live(q, k) && q.log[k].id == id ==>
      id in q.rows && q.rows[id].dueAt.Some? && q.rows[id].lease == Some(q.log[k].until)
  }

  /** Of two dispatches of one event, the earlier had ended, or its lease had run out, when the later was claimed. */
  predicate Apart(a: Dispatch, b: Dispatch) {
    (a.end.Some? && a.end.value <= b.at) || a.until < b.at
  }

  ghost predicate AllApart(q: Queue, id: string) {
    && (forall k :: 0 <= k < |q.log| ==>
          && q.log[k].at <= q.log[k].until && q.log[k].at <= q.clock
          && (q.log[k].end.Some? ==> q.log[k].end.value <= q.clock))
    && forall i, j :: 0 <= i < j < |q.log| && q.log[i].id == id && q.log[j].id == id ==> Apart(q.log[i], q.log[j])
  }

  /** A save of the event is in time when it comes within its own lease, or no other dispatch of the event is live; a
      redelivery of it when none is. What happens to other events does not matter. */
  predicate InTime(q: Queue, action: Action, id: string) {
    match action
    case Saves(k, _) => Running(q, k) && q.log[k].id == id ==> q.clock <= q.log[k].until || !OtherLive(q, id, k)
    case Redelivers(other) => other == id ==> !OtherLive(q, id, |q.log|)
    case _ => true
  }

  ghost predicate AllInTime(q: Queue, steps: seq<Step>, n: nat, id: string)
    requires n <= |steps|
  {
    n == 0 || (AllInTime(q, steps, n - 1, id)
               && InTime(Elapse(After(q, steps, n - 1), steps[n - 1].elapsed), steps[n - 1].action, id))
  }

  lemma ElapseKeeps(q: Queue, d: nat, id: string)
    requires Protected(q, id) && AllApart(q, id)
    ensures Protected(Elapse(q, d), id) && AllApart(Elapse(q, d), id)
  {
    forall k: nat | Live(Elapse(q, d), k) ensures Live(q, k) {
    }
  }

  lemma ClaimKeepsApart(q: Queue, batch: seq<string>, locked: set<string>, ttl: nat, limit: nat, id: string)
    requires Protected(q, id) && AllApart(q, id)
    ensures AllApart(Act(q, Claims(batch, locked, ttl, limit)), id)
  {
    var after := Act(q, Claims(batch, locked, ttl, limit));
    if ValidBatch(q.rows, DueIds(q.rows, q.clock), locked, q.clock, limit, batch) {
      forall i, j | 0 <= i < j < |after.log| && after.log[i].id == id && after.log[j].id == id
        ensures Apart(after.log[i], after.log[j])
      {
        if j >= |q.log| {
          var b := j - |q.log|;
          assert after.log[j].id == batch[b] && Free(q.rows[batch[b]], q.clock);
          if i < |q.log| {
            assert !Live(q, i);
          }
        }
      }
    }
  }

  lemma ClaimKeepsProtected(q: Queue, batch: seq<string>, locked: set<string>, ttl: nat, limit: nat, id: string)
    requires Protected(q, id) && AllApart(q, id)
    ensures Protected(Act(q, Claims(batch, locked, ttl, limit)), id)
  {
    var after := Act(q, Claims(batch, locked, ttl, limit));
    if ValidBatch(q.rows, DueIds(q.rows, q.clock), locked, q.clock, limit, batch) {
      forall k: nat | Live(after, k) && after.log[k].id == id
        ensures id in after.rows && after.rows[id].dueAt.Some? && after.rows[id].lease == Some(after.log[k].until)
      {
        if k < |q.log| {
          assert Live(q, k);
          assert q.log[k].id !in batch;
        } else {
          assert after.log[k].id == batch[k - |q.log|];
        }
      }
    }
  }

  lemma EndKeepsApart(q: Queue, k: nat, id: string)
    requires AllApart(q, id) && Running(q, k)
    ensures AllApart(q.(log := q.log[k := q.log[k].(end := Some(q.clock))]), id)
  {
  }

  /** A running dispatch beside a live one of the same event is the earlier of the two, and past its lease. */
  lemma OtherLiveIsLater(q: Queue, j: nat, k: nat)
    requires Live(q, j) && Running(q, k) && j != k && q.log[j].id == q.log[k].id && AllApart(q, q.log[k].id)
    ensures k < j && q.log[k].until < q.clock
  {
    var first, second := if j < k then j else k, if j < k then k else j;
    assert Apart(q.log[first], q.log[second]);
  }

  /** Writing an event back keeps every live dispatch of it protected exactly when no other dispatch of it is live: the
      write clears whatever lease is there. So a late save or a redelivery can free a lease somebody else holds. */
  lemma SaveKeepsProtectedIff(q: Queue, k: nat, dueAt: Option<int>)
    requires Running(q, k) && Protected(q, q.log[k].id) && AllApart(q, q.log[k].id)
    ensures Protected(Act(q, Saves(k, dueAt)), q.log[k].id) <==> !OtherLive(q, q.log[k].id, k)
    ensures q.clock <= q.log[k].until ==> !OtherLive(q, q.log[k].id, k)
    ensures AllApart(Act(q, Saves(k, dueAt)), q.log[k].id)
  {
    var id, after := q.log[k].id, Act(q, Saves(k, dueAt));
    EndKeepsApart(q, k, id);
    forall j: nat | j != k ensures Live(after, j) <==> Live(q, j) {
    }
    assert !Live(after, k);
    if OtherLive(q, id, k) {
      var j: nat :| j < |q.log| && j != k && q.log[j].id == id && Live(q, j);
      assert Live(after, j) && after.rows[id].lease.None?;
      OtherLiveIsLater(q, j, k);
    }
  }

  lemma RedeliverKeepsProtectedIff(q: Queue, id: string)
    requires Protected(q, id) && id in q.rows
    ensures Protected(Act(q, Redelivers(id)), id) <==> !OtherLive(q, id, |q.log|)
  {
    var after := Act(q, Redelivers(id));
    assert forall j: nat :: Live(after, j) <==> Live(q, j);
    if OtherLive(q, id, |q.log|) {
      var j: nat :| j < |q.log| && q.log[j].id == id && Live(q, j);
      assert Live(after, j) && after.rows[id].lease.None?;
    }
  }

  /** A save of another event leaves this one's dispatches alone, late or not. */
  lemma OtherSaveKeeps(q: Queue, k: nat, dueAt: Option<int>, id: string)
    requires Protected(q, id) && AllApart(q, id) && Running(q, k) && q.log[k].id != id
    ensures Protected(Act(q, Saves(k, dueAt)), id) && AllApart(Act(q, Saves(k, dueAt)), id)
  {
    EndKeepsApart(q, k, id);
    forall j: nat | Live(Act(q, Saves(k, dueAt)), j) ensures Live(q, j) {
    }
  }

  lemma ActKeeps(q: Queue, action: Action, id: string)
    requires Protected(q, id) && AllApart(q, id) && InTime(q, action, id)
    ensures Protected(Act(q, action), id) && AllApart(Act(q, action), id)
  {
    match action {
      case Claims(batch, locked, ttl, limit) =>
        ClaimKeepsApart(q, batch, locked, ttl, limit, id);
        ClaimKeepsProtected(q, batch, locked, ttl, limit, id);
      case Saves(k, dueAt) =>
        if Running(q, k) {
          if q.log[k].id == id {
            SaveKeepsProtectedIff(q, k, dueAt);
          } else {
            OtherSaveKeeps(q, k, dueAt, id);
          }
        }
      case Redelivers(other) =>
        if other in q.rows {
          if other == id {
            RedeliverKeepsProtectedIff(q, id);
          } else {
            assert forall j: nat :: Live(Act(q, action), j) <==> Live(q, j);
          }
        }
      case Abandons(k) =>
        if Running(q, k) {
          EndKeepsApart(q, k, id);
          forall j: nat | Live(Act(q, action), j) ensures Live(q, j) {
          }
        }
      case Enqueues(other, dueAt) => assert forall j: nat :: Live(Act(q, action), j) <==> Live(q, j);
      case Purges(other) => assert forall j: nat :: Live(Act(q, action), j) <==> Live(q, j);
    }
  }

  lemma {:induction false} RunKeeps(clock: int, steps: seq<Step>, n: nat, id: string)
    requires n <= |steps| && AllInTime(Fresh(clock), steps, n, id)
    ensures Protected(After(Fresh(clock), steps, n), id) && AllApart(After(Fresh(clock), steps, n), id)
  {
    hide Act, Protected, AllApart, InTime;
    if n > 0 {
      RunKeeps(clock, steps, n - 1, id);
      var before, step := After(Fresh(clock), steps, n - 1), steps[n - 1];
      ElapseKeeps(before, step.elapsed, id);
      ActKeeps(Elapse(before, step.elapsed), step.action, id);
    } else {
      FreshKeeps(clock, id);
    }
  }

  lemma FreshKeeps(clock: int, id: string)
    ensures Protected(Fresh(clock), id) && AllApart(Fresh(clock), id)
  {
  }

  /** Any number of workers, claims, saves, crashes, redeliveries and purges, late ones of other events included: of two
      dispatches of one event, the earlier had ended before the later began, or its lease had run out by then. So two
      can only overlap if one outlasts its lease. */
  lemma OverlapNeedsOutlasting(clock: int, steps: seq<Step>, n: nat, id: string, i: nat, j: nat)
    requires n <= |steps| && AllInTime(Fresh(clock), steps, n, id)
    requires i < j < |After(Fresh(clock), steps, n).log|
    requires After(Fresh(clock), steps, n).log[i].id == id && After(Fresh(clock), steps, n).log[j].id == id
    ensures var log := After(Fresh(clock), steps, n).log;
            && Apart(log[i], log[j])
            && !(Live(After(Fresh(clock), steps, n), i) && Live(After(Fresh(clock), steps, n), j))
  {
    hide Act, InTime, AllInTime, After, Protected;
    RunKeeps(clock, steps, n, id);
    var q := After(Fresh(clock), steps, n);
    assert Apart(q.log[i], q.log[j]);
  }

  /** Every dispatch begins with a claim of a row that was due and free then, and is leased from then until now plus
      the time to live; nobody else's row changes. */
  lemma ClaimStartsDue(q: Queue, batch: seq<string>, locked: set<string>, ttl: nat, limit: nat, k: nat)
    requires var after := Act(q, Claims(batch, locked, ttl, limit)); |q.log| <= k < |after.log|
    ensures var after := Act(q, Claims(batch, locked, ttl, limit));
            var d := after.log[k];
            && d.at == q.clock && d.until == q.clock + ttl && d.end == None
            && d.id in q.rows && q.rows[d.id].dueAt.Some? && q.rows[d.id].dueAt.value <= q.clock
            && Unleased(q.rows[d.id].lease, q.clock)
            && after.rows[d.id] == q.rows[d.id].(lease := Some(q.clock + ttl))
            && forall id :: id in q.rows && id !in batch ==> after.rows[id] == q.rows[id]
  {
  }

  // ---- What goes wrong without that ----

  lemma SoleClaim(q: Queue, id: string, ttl: nat, limit: nat)
    requires q.rows.Keys == {id} && id in DueIds(q.rows, q.clock) && Free(q.rows[id], q.clock) && limit > 0
    ensures Act(q, Claims([id], {}, ttl, limit)) ==
            q.(rows := q.rows[id := q.rows[id].(lease := Some(q.clock + ttl))],
               log := q.log + [Dispatch(id, q.clock, q.clock + ttl, None)])
  {
    assert ValidBatch(q.rows, DueIds(q.rows, q.clock), {}, q.clock, limit, [id]);
    assert Leased(q.rows, [id], q.clock + ttl) == q.rows[id := q.rows[id].(lease := Some(q.clock + ttl))];
    assert Started([id], q.clock, q.clock + ttl) == [Dispatch(id, q.clock, q.clock + ttl, None)];
  }

  /** A dispatch that outlasts its lease and then saves frees the lease of the next holder: the second and third
      dispatch overlap although neither outlasted its own lease. */
  lemma LateSaveOverlapsOthers()
    ensures var leased := Act(Act(Fresh(0), Enqueues("evt", Some(0))), Claims(["evt"], {}, 10, 50));
            var reclaimed := Act(Elapse(leased, 11), Claims(["evt"], {}, 10, 50));
            var freed := Act(Elapse(reclaimed, 1), Saves(0, Some(12)));
            var q := Act(Elapse(freed, 1), Claims(["evt"], {}, 10, 50));
            |q.log| == 3 && q.log[1].id == q.log[2].id && Live(q, 1) && Live(q, 2)
  {
    var queued := Act(Fresh(0), Enqueues("evt", Some(0)));
    assert queued == Queue(map["evt" := Row(0, Some(0), None)], [], 0);
    SoleClaim(queued, "evt", 10, 50);
    var leased := Act(queued, Claims(["evt"], {}, 10, 50));
    assert leased == Queue(map["evt" := Row(0, Some(0), Some(10))], [Dispatch("evt", 0, 10, None)], 0);
    LateSaveFromLeased(leased);
  }

  lemma LateSaveFromLeased(leased: Queue)
    requires leased == Queue(map["evt" := Row(0, Some(0), Some(10))], [Dispatch("evt", 0, 10, None)], 0)
    ensures var reclaimed := Act(Elapse(leased, 11), Claims(["evt"], {}, 10, 50));
            var freed := Act(Elapse(reclaimed, 1), Saves(0, Some(12)));
            var q := Act(Elapse(freed, 1), Claims(["evt"], {}, 10, 50));
            |q.log| == 3 && q.log[1].id == q.log[2].id && Live(q, 1) && Live(q, 2)
  {
    hide ValidBatch, Leased, Started;
    SoleClaim(Elapse(leased, 11), "evt", 10, 50);
    var reclaimed := Act(Elapse(leased, 11), Claims(["evt"], {}, 10, 50));
    assert reclaimed.rows == map["evt" := Row(0, Some(0), Some(21))];
    var freed := Act(Elapse(reclaimed, 1), Saves(0, Some(12)));
    assert freed.rows == map["evt" := Row(0, Some(12), None)];
    SoleClaim(Elapse(freed, 1), "evt", 10, 50);
  }

  /** A redelivery while a dispatch is live lets a second dispatch start beside it. */
  lemma RedeliveryOverlapsLive(q: Queue, k: nat, ttl: nat, limit: nat)
    requires Live(q, k) && q.rows.Keys == {q.log[k].id} && limit > 0
    ensures var after := Act(Act(q, Redelivers(q.log[k].id)), Claims([q.log[k].id], {}, ttl, limit));
            |after.log| == |q.log| + 1 && after.log[|q.log|].id == q.log[k].id && Live(after, k) && Live(after, |q.log|)
  {
    var freed := Act(q, Redelivers(q.log[k].id));
    assert freed.rows.Keys == {q.log[k].id};
    SoleClaim(freed, q.log[k].id, ttl, limit);
  }

  /** A purge deletes a row that is not due any more and no other; an abandoned dispatch ends and leaves every row; an
      enqueued event is a new row without a lease. */
  lemma RowActionsDo(q: Queue, id: string, k: nat, dueAt: Option<int>)
    ensures Act(q, Purges(id)).rows == if id in q.rows && q.rows[id].dueAt == None then q.rows - {id} else q.rows
    ensures Act(q, Abandons(k)).rows == q.rows
    ensures k < |q.log| && q.log[k].end == None ==>
      Act(q, Abandons(k)).log == q.log[k := q.log[k].(end := Some(q.clock))]
    ensures Act(q, Enqueues(id, dueAt)).rows == if id in q.rows then q.rows else q.rows[id := Row(q.clock, dueAt, None)]
    ensures id in q.rows ==>
      Act(q, Redelivers(id)).rows == q.rows[id := Row(q.rows[id].createdAt, Some(q.clock), None)]
  {
  }
}

/** The poll tick's decision: one watermark and the ids seen exactly at it decide what a full
    history of fetched records would decide (server/internal/triggers/watermark.go). */
module Watermark {
  import opened Common

  datatype PollRecord = PollRecord(id: string, timestamp: int, payload: string)

  /** A record's identity. The same id at a newer timestamp is a different record. */
  datatype Key = Key(id: string, timestamp: int)

  function KeyOf(r: PollRecord): Key { Key(r.id, r.timestamp) }

  function KeysOf(rs: seq<PollRecord>): set<Key> { set r | r in rs :: KeyOf(r) }

  datatype Status = Active | Disabled | PausedTriggerRemoved

  /** The stored list of seen ids is only ever read as a set, so it is one here. */
  datatype TriggerInstance = TriggerInstance(
    status: Status, watermarkAt: Option<int>, seenIDs: set<string>, pausedAt: Option<int>, nextPollAt: Option<int>)

  function NewTriggerInstance(now: int): TriggerInstance {
    TriggerInstance(Active, None, {}, None, Some(now))
  }

  // ---- Oldest first: timestamp ascending, then id ascending ----

  predicate IdLessEq(a: string, b: string) {
    a == "" || (b != "" && (a[0] < b[0] || (a[0] == b[0] && IdLessEq(a[1..], b[1..]))))
  }

  lemma IdOrder(a: string, b: string, c: string)
    ensures IdLessEq(a, b) || IdLessEq(b, a)
    ensures IdLessEq(a, b) && IdLessEq(b, c) ==> IdLessEq(a, c)
  {
    if a != "" && b != "" {
      IdOrder(a[1..], b[1..], if c != "" then c[1..] else "");
    }
  }

  /** Ids compare as texts do: a prefix comes first, and otherwise the first differing character decides. */
  lemma {:induction false} IdOrderIs(a: string, b: string)
    ensures IdLessEq(a, b) <==>
            || (|a| <= |b| && b[..|a|] == a)
            || exists k :: 0 <= k < |a| && k < |b| && a[..k] == b[..k] && a[k] < b[k]
  {
    if a != "" && b != "" {
      IdOrderIs(a[1..], b[1..]);
      SameHead(a, b);
      if a[0] == b[0] {
        assert (|a| <= |b| && b[..|a|] == a) <==> (|a[1..]| <= |b[1..]| && b[1..][..|a[1..]|] == a[1..]) by {
          TailPrefix(a, b);
        }
      } else if a[0] < b[0] {
        assert a[..0] == b[..0];
      }
    }
  }

  lemma TailPrefix(a: string, b: string)
    requires a != "" && b != "" && a[0] == b[0]
    ensures (|a| <= |b| && b[..|a|] == a) <==> (|a| <= |b| && b[1..][..|a| - 1] == a[1..])
  {
    if |a| <= |b| {
      assert b[..|a|] == [b[0]] + b[1..][..|a| - 1];
      assert a == [a[0]] + a[1..];
      assert b[..|a|][1..] == b[1..][..|a| - 1];
    }
  }

  /** Where two texts with the same first character differ is where their rests do. */
  lemma SameHead(a: string, b: string)
    requires a != "" && b != ""
    ensures a[0] == b[0] ==>
      forall k :: 0 < k < |a| && k < |b| ==> (a[..k] == b[..k] <==> a[1..][..k - 1] == b[1..][..k - 1])
    ensures a[0] != b[0] ==> forall k :: 0 < k <= |a| && k <= |b| ==> a[..k] != b[..k]
  {
    forall k | 0 < k <= |a| && k <= |b|
      ensures a[..k] == [a[0]] + a[1..][..k - 1] && b[..k] == [b[0]] + b[1..][..k - 1]
      ensures a[..k][0] == a[0] && b[..k][0] == b[0]
      ensures a[..k][1..] == a[1..][..k - 1] && b[..k][1..] == b[1..][..k - 1]
    {
    }
  }

  predicate NotAfter(r: PollRecord, s: PollRecord) {
    r.timestamp < s.timestamp || (r.timestamp == s.timestamp && IdLessEq(r.id, s.id))
  }

  ghost predicate OldestFirst(rs: seq<PollRecord>) {
    forall i, j :: 0 <= i < j < |rs| ==> NotAfter(rs[i], rs[j])
  }

  function Insert(r: PollRecord, rs: seq<PollRecord>): seq<PollRecord> {
    if rs == [] || NotAfter(r, rs[0]) then [r] + rs else [rs[0]] + Insert(r, rs[1..])
  }

  function SortedByTimestamp(records: seq<PollRecord>): seq<PollRecord> {
    if records == [] then [] else Insert(records[0], SortedByTimestamp(records[1..]))
  }

  lemma {:induction false} InsertSorts(r: PollRecord, rs: seq<PollRecord>)
    requires OldestFirst(rs)
    ensures OldestFirst(Insert(r, rs))
    ensures multiset(Insert(r, rs)) == multiset(rs) + multiset{r}
  {
    if rs != [] {
      IdOrder(r.id, rs[0].id, "");
      assert rs == [rs[0]] + rs[1..];
      if NotAfter(r, rs[0]) {
        forall j | 0 <= j < |rs| ensures NotAfter(r, rs[j]) { IdOrder(r.id, rs[0].id, rs[j].id); }
      } else {
        InsertSorts(r, rs[1..]);
        var rest := Insert(r, rs[1..]);
        forall j | 0 <= j < |rest| ensures NotAfter(rs[0], rest[j]) {
          assert rest[j] in multiset(rest);
          assert rest[j] == r || rest[j] in rs[1..];
        }
      }
    }
  }

  /** The sort's two promises: oldest first, and a permutation of what was fetched. */
  lemma {:induction false} SortedIsOrderedPermutation(records: seq<PollRecord>)
    ensures OldestFirst(SortedByTimestamp(records))
    ensures multiset(SortedByTimestamp(records)) == multiset(records)
    ensures var sorted := SortedByTimestamp(records);
            forall i, j :: 0 <= i < j < |sorted| ==>
              && sorted[i].timestamp <= sorted[j].timestamp
              && (sorted[i].timestamp == sorted[j].timestamp ==> IdLessEq(sorted[i].id, sorted[j].id))
  {
    if records != [] {
      SortedIsOrderedPermutation(records[1..]);
      InsertSorts(records[0], SortedByTimestamp(records[1..]));
      assert records == [records[0]] + records[1..];
    }
  }

  lemma SortedHasSameMembers(records: seq<PollRecord>)
    ensures |SortedByTimestamp(records)| == |records|
    ensures forall r :: r in SortedByTimestamp(records) <==> r in records
    ensures KeysOf(SortedByTimestamp(records)) == KeysOf(records)
  {
    var sorted := SortedByTimestamp(records);
    SortedIsOrderedPermutation(records);
    forall r ensures r in sorted <==> r in records {
      assert r in sorted <==> r in multiset(sorted);
      assert r in records <==> r in multiset(records);
    }
    assert |sorted| == |multiset(sorted)| == |multiset(records)| == |records|;
  }

  // ---- The decision ----

  datatype PollOutcome = PollOutcome(toFire: seq<PollRecord>, instance: TriggerInstance)

  function Latest(rs: seq<PollRecord>): int
    requires rs != []
  {
    var last := rs[|rs| - 1].timestamp;
    if |rs| == 1 then last
    else
      var front := Latest(rs[..|rs| - 1]);
      if last > front then last else front
  }

  /** Latest is the greatest timestamp: no record exceeds it and one attains it. */
  lemma {:induction false} LatestIsGreatest(rs: seq<PollRecord>) returns (r: PollRecord)
    requires rs != []
    ensures r in rs && r.timestamp == Latest(rs)
    ensures forall i :: 0 <= i < |rs| ==> rs[i].timestamp <= Latest(rs)
  {
    r := rs[|rs| - 1];
    if |rs| > 1 {
      var f := LatestIsGreatest(rs[..|rs| - 1]);
      if r.timestamp <= f.timestamp {
        r := f;
      }
    }
  }

  function IdsAt(rs: seq<PollRecord>, ts: int): set<string> {
    set r | r in rs && r.timestamp == ts :: r.id
  }

  predicate Fires(watermark: int, seen: set<string>, r: PollRecord) {
    r.timestamp > watermark || (r.timestamp == watermark && r.id !in seen)
  }

  function BaselinePoll(instance: TriggerInstance, sorted: seq<PollRecord>, now: int): PollOutcome {
    if sorted == [] then PollOutcome([], instance.(watermarkAt := Some(now), seenIDs := {}))
    else PollOutcome([], instance.(watermarkAt := Some(Latest(sorted)), seenIDs := IdsAt(sorted, Latest(sorted))))
  }

  function AdvancedWatermark(watermark: int, toFire: seq<PollRecord>): int {
    if toFire != [] && Latest(toFire) > watermark then Latest(toFire) else watermark
  }

  function AdvancePoll(instance: TriggerInstance, sorted: seq<PollRecord>): PollOutcome
    requires instance.watermarkAt.Some?
  {
    var watermark, seen := instance.watermarkAt.value, instance.seenIDs;
    var toFire := Filter(sorted, r => Fires(watermark, seen, r));
    var newWatermark := AdvancedWatermark(watermark, toFire);
    var kept := if newWatermark == watermark then seen else {};
    PollOutcome(toFire, instance.(watermarkAt := Some(newWatermark), seenIDs := kept + IdsAt(toFire, newWatermark)))
  }

  function ApplyWatermark(instance: TriggerInstance, records: seq<PollRecord>, now: int): PollOutcome {
    var sorted := SortedByTimestamp(records);
    if instance.watermarkAt.None? then BaselinePoll(instance, sorted, now) else AdvancePoll(instance, sorted)
  }

  function Pause(instance: TriggerInstance, now: int): TriggerInstance {
    instance.(pausedAt := Some(now))
  }

  function Resume(instance: TriggerInstance, now: int): TriggerInstance {
    instance.(pausedAt := None, watermarkAt := Some(now), seenIDs := {})
  }

  function Disable(instance: TriggerInstance): TriggerInstance {
    instance.(status := Disabled)
  }

  function Enable(instance: TriggerInstance, now: int): TriggerInstance {
    instance.(status := Active, watermarkAt := Some(now), seenIDs := {})
  }

  function PauseForRemovedTrigger(instance: TriggerInstance): TriggerInstance {
    instance.(status := PausedTriggerRemoved)
  }

  // ---- The loops of the source, proved against the decision ----

  method LatestTimestamp(records: seq<PollRecord>) returns (latest: int, ok: bool)
    ensures ok <==> records != []
    ensures ok ==> latest == Latest(records)
  {
    if |records| == 0 {
      return 0, false;
    }
    latest, ok := records[0].timestamp, true;
    assert records[..1] == [records[0]];
    for i := 1 to |records|
      invariant latest == Latest(records[..i])
    {
      assert records[..i + 1][..i] == records[..i];
      if records[i].timestamp > latest {
        latest := records[i].timestamp;
      }
    }
    assert records[..|records|] == records;
  }

  method SelectFiring(sorted: seq<PollRecord>, watermark: int, seen: set<string>) returns (toFire: seq<PollRecord>)
    ensures toFire == Filter(sorted, r => Fires(watermark, seen, r))
  {
    var p := (r: PollRecord) => Fires(watermark, seen, r);
    toFire := [];
    for i := 0 to |sorted|
      invariant toFire == Filter(sorted[..i], p)
    {
      FilterStep(sorted, i, p);
      if sorted[i].timestamp > watermark || (sorted[i].timestamp == watermark && sorted[i].id !in seen) {
        toFire := toFire + [sorted[i]];
      }
    }
    assert sorted[..|sorted|] == sorted;
    FilterAgree(sorted, p, r => Fires(watermark, seen, r));
  }

  method SeenAt(kept: set<string>, toFire: seq<PollRecord>, watermark: int) returns (seen: set<string>)
    ensures seen == kept + IdsAt(toFire, watermark)
  {
    seen := kept;
    for i := 0 to |toFire|
      invariant seen == kept + IdsAt(toFire[..i], watermark)
    {
      IdsAtStep(toFire, i, watermark);
      if toFire[i].timestamp == watermark {
        seen := seen + {toFire[i].id};
      }
    }
    assert toFire[..|toFire|] == toFire;
  }

  lemma IdsAtStep(rs: seq<PollRecord>, i: nat, ts: int)
    requires i < |rs|
    ensures IdsAt(rs[..i + 1], ts) == IdsAt(rs[..i], ts) + (if rs[i].timestamp == ts then {rs[i].id} else {})
  {
    assert rs[..i + 1] == rs[..i] + [rs[i]];
  }

  method AdvancePollLoop(instance: TriggerInstance, sorted: seq<PollRecord>) returns (outcome: PollOutcome)
    requires instance.watermarkAt.Some?
    ensures outcome == AdvancePoll(instance, sorted)
  {
    var watermark := instance.watermarkAt.value;
    var toFire := SelectFiring(sorted, watermark, instance.seenIDs);
    var newWatermark := watermark;
    var latest, ok := LatestTimestamp(toFire);
    if ok && latest > watermark {
      newWatermark := latest;
    }
    var newSeen := instance.seenIDs;
    if newWatermark != watermark {
      newSeen := {};
    }
    newSeen := SeenAt(newSeen, toFire, newWatermark);
    outcome := PollOutcome(toFire, instance.(watermarkAt := Some(newWatermark), seenIDs := newSeen));
  }

  // ---- Everything that can happen to one instance's poll state ----

  datatype PollEvent =
    | Tick(batch: seq<PollRecord>, now: int)
    | PauseAt(at: int)
    | ResumeAt(at: int)
    | DisableNow
    | EnableAt(at: int)
    | TriggerRemoved

  function Step(instance: TriggerInstance, e: PollEvent): PollOutcome {
    match e
    case Tick(batch, now) => ApplyWatermark(instance, batch, now)
    case PauseAt(at) => PollOutcome([], Pause(instance, at))
    case ResumeAt(at) => PollOutcome([], Resume(instance, at))
    case DisableNow => PollOutcome([], Disable(instance))
    case EnableAt(at) => PollOutcome([], Enable(instance, at))
    case TriggerRemoved => PollOutcome([], PauseForRemovedTrigger(instance))
  }

  /** The instance after the first n events. */
  function After(instance: TriggerInstance, events: seq<PollEvent>, n: nat): TriggerInstance
    requires n <= |events|
  {
    if n == 0 then instance else Step(After(instance, events, n - 1), events[n - 1]).instance
  }

  /** What event i of the run fires. */
  function FiredBy(instance: TriggerInstance, events: seq<PollEvent>, i: nat): seq<PollRecord>
    requires i < |events|
  {
    Step(After(instance, events, i), events[i]).toFire
  }

  // ---- The reference: keep every record ever fetched ----

  /** Everything fetched since the last baseline or reset, and the time that baseline or reset fixed. */
  datatype History = NotYet | Since(start: int, fetched: seq<PollRecord>)

  function HighWater(start: int, fetched: seq<PollRecord>): int {
    if fetched == [] || Latest(fetched) < start then start else Latest(fetched)
  }

  predicate NeverFetched(h: History, r: PollRecord)
    requires h.Since?
  {
    r.timestamp >= HighWater(h.start, h.fetched) && KeyOf(r) !in KeysOf(h.fetched)
  }

  function HistoryFires(h: History, batch: seq<PollRecord>): seq<PollRecord> {
    if h.NotYet? then []
    else Filter(SortedByTimestamp(batch), r => NeverFetched(h, r))
  }

  function HistoryAfter(h: History, e: PollEvent): History {
    match e
    case Tick(batch, now) =>
      if h.NotYet? then Since(if batch == [] then now else Latest(batch), batch) else Since(h.start, h.fetched + batch)
    case ResumeAt(at) => Since(at, [])
    case EnableAt(at) => Since(at, [])
    case _ => h
  }

  function HistoryAt(events: seq<PollEvent>, n: nat): History
    requires n <= |events|
  {
    if n == 0 then NotYet else HistoryAfter(HistoryAt(events, n - 1), events[n - 1])
  }

  /** The instance carries exactly the part of the history that can still matter. */
  ghost predicate Carries(instance: TriggerInstance, h: History) {
    match h
    case NotYet => instance.watermarkAt.None?
    case Since(start, fetched) =>
      && instance.watermarkAt == Some(HighWater(start, fetched))
      && forall id :: id in instance.seenIDs <==> Key(id, HighWater(start, fetched)) in KeysOf(fetched)
  }

  lemma HighWaterBounds(start: int, fetched: seq<PollRecord>)
    ensures start <= HighWater(start, fetched)
    ensures forall i :: 0 <= i < |fetched| ==> fetched[i].timestamp <= HighWater(start, fetched)
    ensures HighWater(start, fetched) == start
            || exists i :: 0 <= i < |fetched| && fetched[i].timestamp == HighWater(start, fetched)
  {
    if fetched != [] {
      var r := LatestIsGreatest(fetched);
    }
  }

  /** A tick moves the watermark to the newest record it fetched, if that is newer. */
  lemma AdvancedWatermarkIs(instance: TriggerInstance, sorted: seq<PollRecord>)
    requires instance.watermarkAt.Some?
    ensures var w, w' := instance.watermarkAt.value, AdvancePoll(instance, sorted).instance.watermarkAt;
            w'.Some? && w'.value == HighWater(w, sorted)
  {
    var w, seen := instance.watermarkAt.value, instance.seenIDs;
    var p := (r: PollRecord) => Fires(w, seen, r);
    var toFire := AdvancePoll(instance, sorted).toFire;
    assert toFire == Filter(sorted, p);
    if toFire != [] {
      var f := LatestIsGreatest(toFire);
      FilterMember(sorted, p, f);
      var r := LatestIsGreatest(sorted);
    }
    if sorted != [] && Latest(sorted) > w {
      var r := LatestIsGreatest(sorted);
      FilterMember(sorted, p, r);
    }
  }

  /** The boundary ids afterwards: those fetched now at the new watermark, and the old ones if it did not move. */
  lemma AdvancedSeenIs(instance: TriggerInstance, sorted: seq<PollRecord>, id: string)
    requires instance.watermarkAt.Some?
    ensures var w, after := instance.watermarkAt.value, AdvancePoll(instance, sorted).instance;
            && after.watermarkAt.Some?
            && (id in after.seenIDs <==>
                  || Key(id, after.watermarkAt.value) in KeysOf(sorted)
                  || (after.watermarkAt.value == w && id in instance.seenIDs))
  {
    var w, seen := instance.watermarkAt.value, instance.seenIDs;
    var p := (r: PollRecord) => Fires(w, seen, r);
    var o := AdvancePoll(instance, sorted);
    assert o.toFire == Filter(sorted, p);
    AdvancedWatermarkIs(instance, sorted);
    var w' := o.instance.watermarkAt.value;
    if id in IdsAt(o.toFire, w') {
      var r :| r in o.toFire && r.timestamp == w' && r.id == id;
      FilterMember(sorted, p, r);
      assert KeyOf(r) in KeysOf(sorted);
    }
    if Key(id, w') in KeysOf(sorted) && !(w' == w && id in seen) {
      var r :| r in sorted && KeyOf(r) == Key(id, w');
      HighWaterBounds(w, sorted);
      FilterMember(sorted, p, r);
      assert r.id in IdsAt(o.toFire, w');
    }
  }

  lemma HighWaterAppends(start: int, fetched: seq<PollRecord>, batch: seq<PollRecord>)
    ensures HighWater(start, fetched + batch) == HighWater(HighWater(start, fetched), batch)
  {
    HighWaterBounds(start, fetched + batch);
    HighWaterBounds(start, fetched);
    HighWaterBounds(HighWater(start, fetched), batch);
    var all := fetched + batch;
    assert forall i :: 0 <= i < |fetched| ==> all[i] == fetched[i];
    assert forall i :: 0 <= i < |batch| ==> all[|fetched| + i] == batch[i];
  }

  lemma SortedHasSameHighWater(w: int, batch: seq<PollRecord>)
    ensures HighWater(w, SortedByTimestamp(batch)) == HighWater(w, batch)
  {
    var sorted := SortedByTimestamp(batch);
    SortedHasSameMembers(batch);
    if batch != [] {
      var r := LatestIsGreatest(batch);
      var s := LatestIsGreatest(sorted);
      assert r in sorted && s in batch;
    }
  }

  lemma BaselineCarries(instance: TriggerInstance, batch: seq<PollRecord>, now: int)
    ensures Carries(BaselinePoll(instance, SortedByTimestamp(batch), now).instance,
                    HistoryAfter(NotYet, Tick(batch, now)))
  {
    var sorted := SortedByTimestamp(batch);
    SortedHasSameMembers(batch);
    if batch != [] {
      SortedHasSameHighWater(Latest(batch), batch);
      BaselineSeenIs(sorted);
      var r := LatestIsGreatest(batch);
      var s := LatestIsGreatest(sorted);
      assert s in batch && r in sorted;
    }
  }

  lemma AdvanceCarries(instance: TriggerInstance, h: History, batch: seq<PollRecord>)
    requires Carries(instance, h) && h.Since?
    ensures Carries(AdvancePoll(instance, SortedByTimestamp(batch)).instance, Since(h.start, h.fetched + batch))
  {
    var sorted := SortedByTimestamp(batch);
    SortedHasSameMembers(batch);
    var after := AdvancePoll(instance, sorted).instance;
    AdvancedWatermarkIs(instance, sorted);
    SortedHasSameHighWater(instance.watermarkAt.value, batch);
    HighWaterAppends(h.start, h.fetched, batch);
    assert KeysOf(h.fetched + batch) == KeysOf(h.fetched) + KeysOf(batch);
    forall id ensures id in after.seenIDs <==> Key(id, after.watermarkAt.value) in KeysOf(h.fetched + batch) {
      AdvancedSeenIs(instance, sorted, id);
      HighWaterBounds(h.start, h.fetched);
      HighWaterBounds(instance.watermarkAt.value, sorted);
    }
  }

  lemma TickCarries(instance: TriggerInstance, h: History, batch: seq<PollRecord>, now: int)
    requires Carries(instance, h)
    ensures Carries(Step(instance, Tick(batch, now)).instance, HistoryAfter(h, Tick(batch, now)))
    ensures Step(instance, Tick(batch, now)).toFire == HistoryFires(h, batch)
  {
    if h.NotYet? {
      BaselineCarries(instance, batch, now);
    } else {
      AdvanceCarries(instance, h, batch);
      TickFiresAsHistory(instance, h, batch);
    }
  }

  lemma BaselineSeenIs(sorted: seq<PollRecord>)
    requires sorted != []
    ensures forall id :: id in IdsAt(sorted, Latest(sorted)) <==> Key(id, Latest(sorted)) in KeysOf(sorted)
  {
    forall id ensures id in IdsAt(sorted, Latest(sorted)) <==> Key(id, Latest(sorted)) in KeysOf(sorted) {
      if id in IdsAt(sorted, Latest(sorted)) {
        var r :| r in sorted && r.timestamp == Latest(sorted) && r.id == id;
        assert KeyOf(r) in KeysOf(sorted);
      }
      if Key(id, Latest(sorted)) in KeysOf(sorted) {
        var r :| r in sorted && KeyOf(r) == Key(id, Latest(sorted));
        assert r.id in IdsAt(sorted, Latest(sorted));
      }
    }
  }

  lemma TickFiresAsHistory(instance: TriggerInstance, h: History, batch: seq<PollRecord>)
    requires Carries(instance, h) && h.Since?
    ensures AdvancePoll(instance, SortedByTimestamp(batch)).toFire == HistoryFires(h, batch)
  {
    var sorted := SortedByTimestamp(batch);
    var w, seen := instance.watermarkAt.value, instance.seenIDs;
    HighWaterBounds(h.start, h.fetched);
    forall i | 0 <= i < |sorted| ensures Fires(w, seen, sorted[i]) == NeverFetched(h, sorted[i]) {
      if KeyOf(sorted[i]) in KeysOf(h.fetched) {
        var r :| r in h.fetched && KeyOf(r) == KeyOf(sorted[i]);
      }
    }
    FilterAgree(sorted, r => Fires(w, seen, r), r => NeverFetched(h, r));
  }

  /** Over every run, the watermark and its boundary ids carry exactly the kept-everything history. */
  lemma {:induction false} RunCarriesHistory(events: seq<PollEvent>, createdAt: int, n: nat)
    requires n <= |events|
    ensures Carries(After(NewTriggerInstance(createdAt), events, n), HistoryAt(events, n))
  {
    if n > 0 {
      RunCarriesHistory(events, createdAt, n - 1);
      var e := events[n - 1];
      if e.Tick? {
        TickCarries(After(NewTriggerInstance(createdAt), events, n - 1), HistoryAt(events, n - 1), e.batch, e.now);
      }
    }
  }

  /** Watermark refinement: what each tick of each run fires is what the full history fires, oldest first. */
  lemma FiresAsFullHistory(events: seq<PollEvent>, createdAt: int, i: nat)
    requires i < |events| && events[i].Tick?
    ensures FiredBy(NewTriggerInstance(createdAt), events, i) == HistoryFires(HistoryAt(events, i), events[i].batch)
    ensures OldestFirst(FiredBy(NewTriggerInstance(createdAt), events, i))
    ensures var fired := FiredBy(NewTriggerInstance(createdAt), events, i);
            forall j, k :: 0 <= j < k < |fired| ==> fired[j].timestamp <= fired[k].timestamp
  {
    RunCarriesHistory(events, createdAt, i);
    var instance, h := After(NewTriggerInstance(createdAt), events, i), HistoryAt(events, i);
    TickCarries(instance, h, events[i].batch, events[i].now);
    if h.Since? {
      SortedIsOrderedPermutation(events[i].batch);
      FilterKeepsOrder(SortedByTimestamp(events[i].batch), r => NeverFetched(h, r), NotAfter);
    }
  }

  // ---- No record fires in two ticks ----

  /** The stored state will never fire k again. */
  predicate Passed(instance: TriggerInstance, k: Key) {
    instance.watermarkAt.Some?
    && (k.timestamp < instance.watermarkAt.value
        || (k.timestamp == instance.watermarkAt.value && k.id in instance.seenIDs))
  }

  /** What a caller can check before a reset: nothing the state has passed lies at or after the reset time. */
  predicate SafeReset(instance: TriggerInstance, at: int) {
    instance.watermarkAt.None? || at > instance.watermarkAt.value
    || (at == instance.watermarkAt.value && instance.seenIDs == {})
  }

  /** Every reset among events i to j is to a time after ts. */
  predicate ResetsAbove(events: seq<PollEvent>, i: nat, j: nat, ts: int)
    requires j <= |events|
  {
    forall m :: i <= m < j && (events[m].ResumeAt? || events[m].EnableAt?) ==> ts < events[m].at
  }

  /** A reset forgets nothing that was passed exactly when it is safe. */
  lemma ResetForgetsNothingIff(instance: TriggerInstance, at: int)
    ensures SafeReset(instance, at) <==> forall k :: Passed(instance, k) ==> Passed(Resume(instance, at), k)
    ensures SafeReset(instance, at) <==> forall k :: Passed(instance, k) ==> Passed(Enable(instance, at), k)
  {
    if !SafeReset(instance, at) {
      var id := if at < instance.watermarkAt.value then "" else var id :| id in instance.seenIDs; id;
      assert Passed(instance, Key(id, at));
      assert !Passed(Resume(instance, at), Key(id, at));
      assert !Passed(Enable(instance, at), Key(id, at));
    }
  }

  /** A tick fires only what was not passed, and everything it fires or skips is passed afterwards. */
  lemma TickPasses(instance: TriggerInstance, batch: seq<PollRecord>, now: int, r: PollRecord)
    ensures var o := ApplyWatermark(instance, batch, now);
            && (Passed(instance, KeyOf(r)) ==> Passed(o.instance, KeyOf(r)))
            && (r in batch ==> Passed(o.instance, KeyOf(r)))
            && (r in o.toFire <==> instance.watermarkAt.Some? && r in batch && !Passed(instance, KeyOf(r)))
  {
    SortedHasSameMembers(batch);
    var sorted := SortedByTimestamp(batch);
    if instance.watermarkAt.Some? {
      var w, seen := instance.watermarkAt.value, instance.seenIDs;
      FilterMember(sorted, x => Fires(w, seen, x), r);
      AdvancedWatermarkIs(instance, sorted);
      HighWaterBounds(w, sorted);
      AdvancedSeenIs(instance, sorted, r.id);
      if r in batch {
        assert r in sorted && KeyOf(r) in KeysOf(sorted);
      }
    } else if r in batch {
      var s := LatestIsGreatest(sorted);
      BaselineSeenIs(sorted);
      assert r in sorted && KeyOf(r) in KeysOf(sorted);
    }
  }

  lemma StepKeepsPassed(instance: TriggerInstance, e: PollEvent, k: Key)
    requires Passed(instance, k) && (e.ResumeAt? || e.EnableAt? ==> k.timestamp < e.at)
    ensures Passed(Step(instance, e).instance, k)
  {
    if e.Tick? {
      TickPasses(instance, e.batch, e.now, PollRecord(k.id, k.timestamp, ""));
    }
  }

  lemma {:induction false} PassedStaysPassed(instance: TriggerInstance, events: seq<PollEvent>, i: nat, j: nat, k: Key)
    requires i <= j <= |events| && ResetsAbove(events, i, j, k.timestamp)
    requires Passed(After(instance, events, i), k)
    ensures Passed(After(instance, events, j), k)
    decreases j
  {
    hide Step, Passed;
    if i < j {
      PassedStaysPassed(instance, events, i, j - 1, k);
      StepKeepsPassed(After(instance, events, j - 1), events[j - 1], k);
    }
  }

  /** A record fires in two ticks only if a reset between them goes back to its timestamp or before it. */
  lemma NoRecordFiresTwice(instance: TriggerInstance, events: seq<PollEvent>, i: nat, j: nat, r: PollRecord,
                           r': PollRecord)
    requires i < j < |events| && ResetsAbove(events, i + 1, j, r.timestamp)
    requires r in FiredBy(instance, events, i) && r' in FiredBy(instance, events, j)
    ensures KeyOf(r) != KeyOf(r')
  {
    hide Passed, ApplyWatermark;
    TickPasses(After(instance, events, i), events[i].batch, events[i].now, r);
    PassedStaysPassed(instance, events, i + 1, j, KeyOf(r));
    TickPasses(After(instance, events, j), events[j].batch, events[j].now, r');
  }

  /** After a reset, a record the state had passed fires again exactly when it lies at or after the reset time. */
  lemma ResetRefiresIff(instance: TriggerInstance, r: PollRecord, at: int, now: int)
    requires Passed(instance, KeyOf(r))
    ensures r in ApplyWatermark(Resume(instance, at), [r], now).toFire <==> r.timestamp >= at
    ensures r.timestamp >= at ==> !SafeReset(instance, at)
  {
    hide ApplyWatermark;
    TickPasses(Resume(instance, at), [r], now, r);
  }

  /** So the strictness of the reset time matters: fire, resume at the very instant of the record, fire again. */
  lemma UnsafeResetRefires(r: PollRecord, now: int)
    ensures var once := ApplyWatermark(Enable(NewTriggerInstance(now), r.timestamp), [r], now);
            && r in once.toFire
            && r in ApplyWatermark(Resume(once.instance, r.timestamp), [r], now).toFire
  {
    hide ApplyWatermark;
    var start := Enable(NewTriggerInstance(now), r.timestamp);
    TickPasses(start, [r], now, r);
    ResetRefiresIff(ApplyWatermark(start, [r], now).instance, r, r.timestamp, now);
  }

  // ---- Status and pauses ----

  /** The whole transition table of status and pause; disabling and pausing leave the poll state alone. */
  lemma StepMoves(instance: TriggerInstance, e: PollEvent)
    ensures var after := Step(instance, e).instance;
            && after.status == (match e
                                case DisableNow => Disabled
                                case EnableAt(_) => Active
                                case TriggerRemoved => PausedTriggerRemoved
                                case _ => instance.status)
            && after.pausedAt == (match e
                                  case PauseAt(at) => Some(at)
                                  case ResumeAt(_) => None
                                  case _ => instance.pausedAt)
            && (!e.Tick? ==> Step(instance, e).toFire == [] && after.nextPollAt == instance.nextPollAt)
            && (e.PauseAt? || e.DisableNow? || e.TriggerRemoved? ==>
                  after.watermarkAt == instance.watermarkAt && after.seenIDs == instance.seenIDs)
  {
  }

  /** A new instance is active, due at once, and fires nothing in its first tick. */
  lemma FirstTickFiresNothing(createdAt: int, batch: seq<PollRecord>, now: int)
    ensures var instance := NewTriggerInstance(createdAt);
            && instance.status == Active && instance.pausedAt == None && instance.nextPollAt == Some(createdAt)
            && ApplyWatermark(instance, batch, now).toFire == []
  {
  }
}

/** Rotating the secrets of an API key or a webhook endpoint (server/internal/access/facade.go, secret.go,
    webhook_secret.go; both kinds rotate alike). Every write may fail, which ends the rotation there. */
module SecretRotation {
  import opened Common

  const HOUR := 3_600_000_000_000
  const DEFAULT_OVERLAP_HOURS := 24

  /** value is the secret itself, behind its hash or ciphertext. An absent expiry marks the active secret. */
  datatype Secret = Secret(id: nat, value: string, createdAt: int, expiresAt: Option<int>)

  predicate IsExpired(s: Secret, now: int) {
    s.expiresAt.Some? && now >= s.expiresAt.value
  }

  function OverlapHoursOrDefault(hours: Option<int>): int {
    if hours.Some? then hours.value else DEFAULT_OVERLAP_HOURS
  }

  /** A number of hours as nanoseconds in 64 bits. */
  function Duration(hours: int): int { Wrap(hours * HOUR) }

  lemma DurationFits(hours: int)
    requires 0 <= hours
    ensures hours <= 2562047 ==> Duration(hours) == hours * HOUR
  {
    if hours <= 2562047 {
      assert 0 <= hours * HOUR <= MAX_INT;
    }
  }

  // ---- One rotation ----

  function Retired(s: Secret, now: int, overlapEnd: int): Secret {
    if s.expiresAt.None? then s.(expiresAt := Some(overlapEnd))
    else if IsExpired(s, now) then s
    else s.(expiresAt := Some(now))
  }

  /** How many writes retiring the first n secrets takes. */
  function WritesFor(secrets: seq<Secret>, n: nat, now: int): nat
    requires n <= |secrets|
  {
    if n == 0 then 0 else WritesFor(secrets, n - 1, now) + (if IsExpired(secrets[n - 1], now) then 0 else 1)
  }

  /** The secrets after retiring as far as budget writes go. */
  function RetireLive(secrets: seq<Secret>, now: int, overlapEnd: int, budget: nat): seq<Secret> {
    seq(|secrets|, i requires 0 <= i < |secrets| =>
      if WritesFor(secrets, i + 1, now) <= budget then Retired(secrets[i], now, overlapEnd) else secrets[i])
  }

  predicate Completes(secrets: seq<Secret>, now: int, budget: nat) {
    WritesFor(secrets, |secrets|, now) < budget
  }

  function Rotate(secrets: seq<Secret>, minted: Secret, overlapEnd: int, budget: nat): seq<Secret> {
    var now := minted.createdAt;
    RetireLive(secrets, now, overlapEnd, budget) + (if Completes(secrets, now, budget) then [minted] else [])
  }

  // ---- Views ----

  /** The last member without an expiry, in list order. */
  function ActiveSecretOf(secrets: seq<Secret>): Option<Secret> {
    if secrets == [] then None
    else if secrets[|secrets| - 1].expiresAt.None? then Some(secrets[|secrets| - 1])
    else ActiveSecretOf(secrets[..|secrets| - 1])
  }

  function LatestExpiresAt(secrets: seq<Secret>): Option<int> {
    if secrets == [] then None
    else
      var before, last := LatestExpiresAt(secrets[..|secrets| - 1]), secrets[|secrets| - 1].expiresAt;
      if last.Some? && (before.None? || last.value > before.value) then last else before
  }

  /** When the last rotation happened and when its overlap ends, for a key that shows one. */
  function RotationState(secrets: seq<Secret>): Option<(int, int)> {
    var active, latest := ActiveSecretOf(secrets), LatestExpiresAt(secrets);
    if active.None? || latest.None? then None else Some((active.value.createdAt, latest.value))
  }

  function Unexpired(now: int): Secret -> bool {
    (s: Secret) => !IsExpired(s, now)
  }

  /** The store of one key's secrets, oldest first. */
  class SecretStore {
    var secrets: seq<Secret>
    var nextId: nat

    constructor (first: Secret)
      requires first.expiresAt.None?
      ensures secrets == [first] && nextId == first.id + 1
    {
      secrets, nextId := [first], first.id + 1;
    }

    /** Retires every secret that can still authenticate, one write at a time, until a write fails. */
    method ExpireLiveSecrets(now: int, overlapEnd: int, budget: nat) returns (left: nat, ok: bool)
      modifies this`secrets
      ensures secrets == RetireLive(old(secrets), now, overlapEnd, budget)
      ensures ok <==> WritesFor(old(secrets), |old(secrets)|, now) <= budget
      ensures ok ==> left == budget - WritesFor(old(secrets), |old(secrets)|, now)
    {
      left := budget;
      ghost var was := secrets;
      for i := 0 to |secrets|
        invariant |secrets| == |was|
        invariant WritesFor(was, i, now) <= budget && left == budget - WritesFor(was, i, now)
        invariant forall j :: 0 <= j < i ==> secrets[j] == Retired(was[j], now, overlapEnd)
        invariant forall j :: i <= j < |was| ==> secrets[j] == was[j]
      {
        if !IsExpired(secrets[i], now) {
          if left == 0 {
            RetiredSoFar(was, secrets, i, now, overlapEnd, budget);
            return 0, false;
          }
          left := left - 1;
        }
        secrets := secrets[i := if secrets[i].expiresAt.None? then secrets[i].(expiresAt := Some(overlapEnd))
                                else if IsExpired(secrets[i], now) then secrets[i]
                                else secrets[i].(expiresAt := Some(now))];
      }
      RetiredSoFar(was, secrets, |was|, now, overlapEnd, budget);
      ok := true;
    }

    method RotateSecret(now: int, overlapHours: Option<int>, value: string,
                        budget: nat) returns (overlapEnd: Option<int>)
      modifies this
      ensures overlapHours.Some? && overlapHours.value < 0 ==> overlapEnd.None? && secrets == old(secrets)
      ensures var hours := OverlapHoursOrDefault(overlapHours);
              hours >= 0 ==>
                && secrets == Rotate(old(secrets), Secret(old(nextId), value, now, None), now + Duration(hours), budget)
                && overlapEnd == if Completes(old(secrets), now, budget) then Some(now + Duration(hours)) else None
      ensures overlapHours == None && overlapEnd.Some? ==> overlapEnd.value == now + 24 * 3_600_000_000_000
      ensures overlapHours.Some? && overlapHours.value <= 2562047 && overlapEnd.Some? ==>
                overlapEnd.value == now + overlapHours.value * 3_600_000_000_000
    {
      if overlapHours.Some? && overlapHours.value < 0 {
        return None;
      }
      DurationFits(OverlapHoursOrDefault(overlapHours));
      var end := now + Duration(OverlapHoursOrDefault(overlapHours));
      var left, ok := ExpireLiveSecrets(now, end, budget);
      if !ok || left == 0 {
        return None;
      }
      secrets := secrets + [Secret(nextId, value, now, None)];
      nextId := nextId + 1;
      overlapEnd := Some(end);
    }

    method FindActiveSecret() returns (active: Option<Secret>)
      ensures active == ActiveSecretOf(secrets)
    {
      active := None;
      for i := 0 to |secrets|
        invariant active == ActiveSecretOf(secrets[..i])
      {
        assert secrets[..i + 1][..i] == secrets[..i];
        if secrets[i].expiresAt.None? {
          active := Some(secrets[i]);
        }
      }
      assert secrets[..|secrets|] == secrets;
    }

    method FindLatestExpiry() returns (latest: Option<int>)
      ensures latest == LatestExpiresAt(secrets)
    {
      latest := None;
      for i := 0 to |secrets|
        invariant latest == LatestExpiresAt(secrets[..i])
      {
        assert secrets[..i + 1][..i] == secrets[..i];
        if secrets[i].expiresAt.Some? && (latest.None? || secrets[i].expiresAt.value > latest.value) {
          latest := secrets[i].expiresAt;
        }
      }
      assert secrets[..|secrets|] == secrets;
    }

    /** What a delivery is signed with. */
    method ActiveSecrets(now: int) returns (live: seq<Secret>)
      ensures live == Filter(secrets, Unexpired(now))
      ensures forall s :: s in live <==> s in secrets && (s.expiresAt == None || now < s.expiresAt.value)
    {
      live := [];
      for i := 0 to |secrets|
        invariant live == Filter(secrets[..i], Unexpired(now))
      {
        FilterStep(secrets, i, Unexpired(now));
        if !IsExpired(secrets[i], now) {
          live := live + [secrets[i]];
        }
      }
      assert secrets[..|secrets|] == secrets;
      forall s ensures s in live <==> s in secrets && (s.expiresAt == None || now < s.expiresAt.value) {
        FilterMember(secrets, Unexpired(now), s);
      }
    }
  }

  /** Retiring in turn until the budget is used up at a secret that still needs a write. */
  lemma RetiredSoFar(was: seq<Secret>, secrets: seq<Secret>, i: nat, now: int, overlapEnd: int, budget: nat)
    requires |secrets| == |was| && i <= |was| && WritesFor(was, i, now) <= budget
    requires i < |was| ==> WritesFor(was, i + 1, now) > budget
    requires forall j :: 0 <= j < i ==> secrets[j] == Retired(was[j], now, overlapEnd)
    requires forall j :: i <= j < |was| ==> secrets[j] == was[j]
    ensures secrets == RetireLive(was, now, overlapEnd, budget)
    ensures i < |was| ==> WritesFor(was, |was|, now) > budget
  {
    hide Retired, WritesFor;
    var live := RetireLive(was, now, overlapEnd, budget);
    if i < |was| {
      WritesGrowTo(was, now, i + 1, |was|);
    }
    forall j | 0 <= j < |was| ensures secrets[j] == live[j] {
      if j < i {
        WritesGrowTo(was, now, j + 1, i);
      } else {
        WritesGrowTo(was, now, i + 1, j + 1);
      }
    }
  }

  lemma {:induction false} WritesGrowTo(secrets: seq<Secret>, now: int, i: nat, j: nat)
    requires i <= j <= |secrets|
    ensures WritesFor(secrets, i, now) <= WritesFor(secrets, j, now)
  {
    if i < j {
      WritesGrowTo(secrets, now, i, j - 1);
    }
  }

  lemma WritesGrow(secrets: seq<Secret>, now: int)
    ensures forall i, j :: 0 <= i <= j <= |secrets| ==> WritesFor(secrets, i, now) <= WritesFor(secrets, j, now)
  {
    forall i, j | 0 <= i <= j <= |secrets| ensures WritesFor(secrets, i, now) <= WritesFor(secrets, j, now) {
      WritesGrowTo(secrets, now, i, j);
    }
  }

  // ---- The bound on live secrets ----

  function LiveCount(secrets: seq<Secret>, now: int): nat { |Filter(secrets, Unexpired(now))| }

  function ActiveCount(secrets: seq<Secret>): nat {
    if secrets == [] then 0
    else ActiveCount(secrets[..|secrets| - 1]) + (if secrets[|secrets| - 1].expiresAt.None? then 1 else 0)
  }

  /** At most one active secret and at most two live, now and at any later time. */
  ghost predicate Bounded(secrets: seq<Secret>, now: int) {
    ActiveCount(secrets) <= 1 && LiveCount(secrets, now) <= 2
  }

  /** Time only takes secrets away. */
  lemma {:induction false} LiveCountShrinks(secrets: seq<Secret>, now: int, later: int)
    requires now <= later
    ensures LiveCount(secrets, later) <= LiveCount(secrets, now)
  {
    if secrets != [] {
      LiveCountShrinks(secrets[..|secrets| - 1], now, later);
    }
  }

  /** A member-by-member change that revives nothing and activates nothing keeps both counts down. */
  lemma {:induction false} CountsShrink(before: seq<Secret>, after: seq<Secret>, now: int)
    requires |before| == |after|
    requires forall i :: 0 <= i < |before| ==>
      && (IsExpired(before[i], now) ==> IsExpired(after[i], now))
      && (before[i].expiresAt.Some? ==> after[i].expiresAt.Some?)
    ensures LiveCount(after, now) <= LiveCount(before, now) && ActiveCount(after) <= ActiveCount(before)
  {
    if before != [] {
      CountsShrink(before[..|before| - 1], after[..|before| - 1], now);
    }
  }

  /** If only active secrets stay live and all are retired, what is live is what was active. */
  lemma {:induction false} LiveWasActive(before: seq<Secret>, after: seq<Secret>, now: int)
    requires |before| == |after|
    requires forall i :: 0 <= i < |before| ==>
      after[i].expiresAt.Some? && (before[i].expiresAt.Some? ==> IsExpired(after[i], now))
    ensures LiveCount(after, now) <= ActiveCount(before) && ActiveCount(after) == 0
  {
    if before != [] {
      LiveWasActive(before[..|before| - 1], after[..|before| - 1], now);
    }
  }

  lemma CountsOfOneMore(secrets: seq<Secret>, minted: Secret, now: int)
    requires minted.expiresAt.None?
    ensures LiveCount(secrets + [minted], now) == LiveCount(secrets, now) + 1
    ensures ActiveCount(secrets + [minted]) == ActiveCount(secrets) + 1
  {
    assert (secrets + [minted])[..|secrets|] == secrets;
  }

  /** A rotation keeps the bound however far its writes get; one that completes leaves exactly one active secret. */
  lemma RotateKeepsBound(secrets: seq<Secret>, minted: Secret, overlapEnd: int, budget: nat)
    requires minted.expiresAt.None? && Bounded(secrets, minted.createdAt)
    ensures Bounded(Rotate(secrets, minted, overlapEnd, budget), minted.createdAt)
    ensures Completes(secrets, minted.createdAt, budget) ==>
              ActiveCount(Rotate(secrets, minted, overlapEnd, budget)) == 1
  {
    var now := minted.createdAt;
    var retired := RetireLive(secrets, now, overlapEnd, budget);
    CountsShrink(secrets, retired, now);
    if Completes(secrets, now, budget) {
      WritesGrow(secrets, now);
      LiveWasActive(secrets, retired, now);
      CountsOfOneMore(retired, minted, now);
    } else {
      assert retired + [] == retired;
    }
  }

  /** One rotation call: how long after the previous one, the overlap asked for, and how many writes succeed. */
  datatype Call = Call(elapsed: nat, overlapHours: Option<int>, value: string, budget: nat)

  datatype Key = Key(secrets: seq<Secret>, clock: int, nextId: nat)

  predicate Rejected(call: Call) { call.overlapHours.Some? && call.overlapHours.value < 0 }

  function OverlapEnd(now: int, call: Call): int { now + Duration(OverlapHoursOrDefault(call.overlapHours)) }

  function Called(key: Key, call: Call): Key {
    var now := key.clock + call.elapsed;
    if Rejected(call) then key.(clock := now)
    else Key(Rotate(key.secrets, Secret(key.nextId, call.value, now, None), OverlapEnd(now, call), call.budget),
             now, key.nextId + 1)
  }

  function After(key: Key, calls: seq<Call>, n: nat): Key
    requires n <= |calls|
  {
    if n == 0 then key else Called(After(key, calls, n - 1), calls[n - 1])
  }

  function Issued(first: Secret): Key { Key([first], first.createdAt, first.id + 1) }

  lemma CalledKeepsBound(key: Key, call: Call)
    requires Bounded(key.secrets, key.clock)
    ensures Bounded(Called(key, call).secrets, Called(key, call).clock)
  {
    var now := key.clock + call.elapsed;
    LiveCountShrinks(key.secrets, key.clock, now);
    if !Rejected(call) {
      RotateKeepsBound(key.secrets, Secret(key.nextId, call.value, now, None), OverlapEnd(now, call), call.budget);
    }
  }

  /** However often a key is rotated, with whatever overlaps, and wherever writes fail, at most two of its secrets are
      live at any time and at most one has no expiry. */
  lemma {:induction false} AtMostTwoLive(first: Secret, calls: seq<Call>, n: nat, later: int)
    requires first.expiresAt.None? && n <= |calls| && After(Issued(first), calls, n).clock <= later
    ensures LiveCount(After(Issued(first), calls, n).secrets, later) <= 2
    ensures ActiveCount(After(Issued(first), calls, n).secrets) <= 1
  {
    var key := After(Issued(first), calls, n);
    assert Bounded(key.secrets, key.clock) by {
      if n > 0 {
        AtMostTwoLive(first, calls, n - 1, After(Issued(first), calls, n - 1).clock);
        hide After, Called, LiveCount;
        CalledKeepsBound(After(Issued(first), calls, n - 1), calls[n - 1]);
        assert key == Called(After(Issued(first), calls, n - 1), calls[n - 1]) by {
          RunStep(Issued(first), calls, n);
        }
      } else {
        CountsOfOneMore([], first, first.createdAt);
        assert [] + [first] == [first];
      }
    }
    LiveCountShrinks(key.secrets, key.clock, later);
  }

  lemma RunStep(key: Key, calls: seq<Call>, n: nat)
    requires 0 < n <= |calls|
    ensures After(key, calls, n) == Called(After(key, calls, n - 1), calls[n - 1])
  {
  }

  predicate CompletesAt(key: Key, call: Call) {
    !Rejected(call) && Completes(key.secrets, key.clock + call.elapsed, call.budget)
  }

  ghost predicate AllComplete(key: Key, calls: seq<Call>, n: nat)
    requires n <= |calls|
  {
    n == 0 || (AllComplete(key, calls, n - 1)
               && (Rejected(calls[n - 1]) || CompletesAt(After(key, calls, n - 1), calls[n - 1])))
  }

  /** While every rotation completes, exactly one secret has no expiry. */
  lemma {:induction false} ExactlyOneActive(first: Secret, calls: seq<Call>, n: nat)
    requires first.expiresAt.None? && n <= |calls| && AllComplete(Issued(first), calls, n)
    ensures ActiveCount(After(Issued(first), calls, n).secrets) == 1
  {
    if n == 0 {
      CountsOfOneMore([], first, first.createdAt);
      assert [] + [first] == [first];
    } else {
      ExactlyOneActive(first, calls, n - 1);
      var before, call := After(Issued(first), calls, n - 1), calls[n - 1];
      AtMostTwoLive(first, calls, n - 1, before.clock);
      RunStep(Issued(first), calls, n);
      hide After, Called, LiveCount, ActiveCount, CompletesAt;
      CompleteCallLeavesOne(before, call);
    }
  }

  lemma CompleteCallLeavesOne(key: Key, call: Call)
    requires Bounded(key.secrets, key.clock) && ActiveCount(key.secrets) == 1
    requires Rejected(call) || CompletesAt(key, call)
    ensures ActiveCount(Called(key, call).secrets) == 1
  {
    var now := key.clock + call.elapsed;
    LiveCountShrinks(key.secrets, key.clock, now);
    if !Rejected(call) {
      RotateKeepsBound(key.secrets, Secret(key.nextId, call.value, now, None), OverlapEnd(now, call), call.budget);
    }
  }

  // ---- The view ----

  lemma {:induction false} ActiveSecretIs(secrets: seq<Secret>)
    ensures ActiveSecretOf(secrets).Some? ==>
              ActiveSecretOf(secrets).value in secrets && ActiveSecretOf(secrets).value.expiresAt.None?
    ensures ActiveSecretOf(secrets).None? ==> forall s :: s in secrets ==> s.expiresAt.Some?
  {
    if secrets != [] {
      var front := secrets[..|secrets| - 1];
      ActiveSecretIs(front);
      assert secrets == front + [secrets[|secrets| - 1]];
    }
  }

  lemma {:induction false} LatestExpiryIs(secrets: seq<Secret>)
    ensures var latest := LatestExpiresAt(secrets);
            && (latest.Some? ==> exists s :: s in secrets && s.expiresAt == latest)
            && (forall s :: s in secrets && s.expiresAt.Some? ==> latest.Some? && s.expiresAt.value <= latest.value)
  {
    if secrets != [] {
      var front, last := secrets[..|secrets| - 1], secrets[|secrets| - 1];
      LatestExpiryIs(front);
      assert secrets == front + [last];
    }
  }

  /** The list holds the same secrets, in any order. */
  ghost predicate SameMembers(a: seq<Secret>, b: seq<Secret>) {
    forall s :: s in a <==> s in b
  }

  lemma RotatedMembers(secrets: seq<Secret>, minted: Secret, overlapEnd: int, budget: nat, s: Secret)
    requires minted.expiresAt.None? && Completes(secrets, minted.createdAt, budget)
    requires s in Rotate(secrets, minted, overlapEnd, budget) && s != minted
    ensures s.expiresAt.Some?
    ensures exists i :: 0 <= i < |secrets| && s == Retired(secrets[i], minted.createdAt, overlapEnd)
  {
    WritesGrow(secrets, minted.createdAt);
    var retired := RetireLive(secrets, minted.createdAt, overlapEnd, budget);
    var i :| 0 <= i < |retired| && retired[i] == s;
    assert s == Retired(secrets[i], minted.createdAt, overlapEnd);
  }

  lemma RetiredIsMember(secrets: seq<Secret>, minted: Secret, overlapEnd: int, budget: nat, i: nat)
    requires Completes(secrets, minted.createdAt, budget) && i < |secrets|
    ensures Retired(secrets[i], minted.createdAt, overlapEnd) in Rotate(secrets, minted, overlapEnd, budget)
  {
    WritesGrow(secrets, minted.createdAt);
    var rotated := Rotate(secrets, minted, overlapEnd, budget);
    assert rotated[i] == Retired(secrets[i], minted.createdAt, overlapEnd);
  }

  /** After a complete rotation that retired an active secret, any ordering of the list shows the time of the rotation
      and the end of its overlap, which may be the time of the rotation itself. */
  lemma RotationIsShown(secrets: seq<Secret>, minted: Secret, overlapEnd: int, budget: nat, listed: seq<Secret>)
    requires minted.expiresAt.None? && Completes(secrets, minted.createdAt, budget) && minted.createdAt <= overlapEnd
    requires SameMembers(listed, Rotate(secrets, minted, overlapEnd, budget))
    requires exists s :: s in secrets && s.expiresAt.None?
    ensures RotationState(listed) == Some((minted.createdAt, overlapEnd))
  {
    var now := minted.createdAt;
    LatestExpiryIs(listed);
    ActiveIsFresh(secrets, minted, overlapEnd, budget, listed);
    forall s | s in listed && s != minted ensures s.expiresAt.Some? && s.expiresAt.value <= overlapEnd {
      RotatedMembers(secrets, minted, overlapEnd, budget, s);
    }
    var i :| 0 <= i < |secrets| && secrets[i].expiresAt.None?;
    RetiredIsMember(secrets, minted, overlapEnd, budget, i);
    assert Retired(secrets[i], now, overlapEnd) in listed;
  }

  /** After a complete rotation with an overlap that has not ended when it begins, any ordering of the list shows the
      time of the rotation and the end of its overlap exactly when there was an active secret to retire. Otherwise, as
      after a rotation that failed on its last write, it shows nothing or an overlap that is already over. */
  lemma RotationIsShownIff(secrets: seq<Secret>, minted: Secret, overlapEnd: int, budget: nat, listed: seq<Secret>)
    requires minted.expiresAt.None? && Completes(secrets, minted.createdAt, budget) && minted.createdAt < overlapEnd
    requires SameMembers(listed, Rotate(secrets, minted, overlapEnd, budget))
    ensures RotationState(listed) == Some((minted.createdAt, overlapEnd)) <==>
              exists s :: s in secrets && s.expiresAt.None?
    ensures (forall s :: s in secrets ==> s.expiresAt.Some?) ==>
              if secrets == [] then RotationState(listed).None?
              else RotationState(listed).Some? && RotationState(listed).value.1 <= minted.createdAt
  {
    var now, rotated := minted.createdAt, Rotate(secrets, minted, overlapEnd, budget);
    ActiveSecretIs(listed);
    LatestExpiryIs(listed);
    ActiveIsFresh(secrets, minted, overlapEnd, budget, listed);
    forall s | s in listed && s != minted
      ensures s.expiresAt.Some? && s.expiresAt.value <= overlapEnd
      ensures s.expiresAt.value > now ==>
                s.expiresAt.value == overlapEnd && exists i :: 0 <= i < |secrets| && secrets[i].expiresAt.None?
    {
      RotatedMembers(secrets, minted, overlapEnd, budget, s);
    }
    forall i | 0 <= i < |secrets| ensures Retired(secrets[i], now, overlapEnd) in listed {
      RetiredIsMember(secrets, minted, overlapEnd, budget, i);
    }
    if exists s :: s in secrets && s.expiresAt.None? {
      var i :| 0 <= i < |secrets| && secrets[i].expiresAt.None?;
      assert Retired(secrets[i], now, overlapEnd).expiresAt == Some(overlapEnd);
    } else if secrets != [] {
      assert Retired(secrets[0], now, overlapEnd) in listed;
    }
  }

  lemma ActiveIsFresh(secrets: seq<Secret>, minted: Secret, overlapEnd: int, budget: nat, listed: seq<Secret>)
    requires minted.expiresAt.None? && Completes(secrets, minted.createdAt, budget)
    requires SameMembers(listed, Rotate(secrets, minted, overlapEnd, budget))
    ensures ActiveSecretOf(listed) == Some(minted)
  {
    var rotated := Rotate(secrets, minted, overlapEnd, budget);
    ActiveSecretIs(listed);
    assert rotated[|rotated| - 1] == minted;
    assert minted in listed;
    var active := ActiveSecretOf(listed).value;
    if active != minted {
      RotatedMembers(secrets, minted, overlapEnd, budget, active);
    }
  }

  /** A rotation that retires everything and then fails to save the new secret leaves no active one, and nothing to
      show. */
  lemma FailedSaveLosesView(secrets: seq<Secret>, minted: Secret, overlapEnd: int, budget: nat, listed: seq<Secret>)
    requires WritesFor(secrets, |secrets|, minted.createdAt) == budget
    requires SameMembers(listed, Rotate(secrets, minted, overlapEnd, budget))
    ensures ActiveSecretOf(listed).None? && RotationState(listed).None?
  {
    WritesGrow(secrets, minted.createdAt);
    ActiveSecretIs(listed);
    var rotated := Rotate(secrets, minted, overlapEnd, budget);
    assert forall i :: 0 <= i < |secrets| ==> rotated[i] == Retired(secrets[i], minted.createdAt, overlapEnd);
    assert forall s :: s in rotated ==> s.expiresAt.Some?;
  }

  /** After a run whose last rotation completed, with all before it complete, every ordering shows that rotation. */
  lemma LastRotationIsShown(first: Secret, calls: seq<Call>, n: nat, listed: seq<Secret>)
    requires first.expiresAt.None? && 0 < n <= |calls| && AllComplete(Issued(first), calls, n)
               && !Rejected(calls[n - 1])
    requires Duration(OverlapHoursOrDefault(calls[n - 1].overlapHours)) >= 0
    requires SameMembers(listed, After(Issued(first), calls, n).secrets)
    ensures var now := After(Issued(first), calls, n).clock;
            RotationState(listed) == Some((now, OverlapEnd(now, calls[n - 1])))
  {
    var before, call := After(Issued(first), calls, n - 1), calls[n - 1];
    ExactlyOneActive(first, calls, n - 1);
    OneIsSomewhere(before.secrets);
    RunStep(Issued(first), calls, n);
    hide After;
    var now := before.clock + call.elapsed;
    RotationIsShown(before.secrets, Secret(before.nextId, call.value, now, None), OverlapEnd(now, call), call.budget,
                    listed);
  }

  lemma {:induction false} OneIsSomewhere(secrets: seq<Secret>)
    requires ActiveCount(secrets) > 0
    ensures exists s :: s in secrets && s.expiresAt.None?
  {
    var front, last := secrets[..|secrets| - 1], secrets[|secrets| - 1];
    assert last in secrets;
    if last.expiresAt.Some? {
      OneIsSomewhere(front);
      var s :| s in front && s.expiresAt.None?;
      assert s in secrets;
    }
  }

  /** The overlap is as long as asked exactly when it fits 64 bits of nanoseconds, some 292 years. */
  lemma OverlapAsAskedIff(hours: nat)
    ensures Duration(hours) == hours * HOUR <==> hours <= 2562047
    ensures Duration(2562048) < 0
  {
  }

  // ---- Authenticating ----

  /** A stored secret found by its lookup prefix, with what its key says. */
  datatype Candidate = Candidate(org: string, scope: string, revoked: bool, secret: Secret)

  /** The first candidate whose hash matches decides. */
  function Verified(candidates: seq<Candidate>, presented: string, now: int): Option<(string, string)> {
    if candidates == [] then None
    else
      var c := candidates[0];
      if c.secret.value != presented then Verified(candidates[1..], presented, now)
      else if c.revoked || IsExpired(c.secret, now) then None
      else Some((c.org, c.scope))
  }

  method Verify(candidates: seq<Candidate>, presented: string, now: int) returns (key: Option<(string, string)>)
    ensures key == Verified(candidates, presented, now)
  {
    for i := 0 to |candidates|
      invariant Verified(candidates, presented, now) == Verified(candidates[i..], presented, now)
    {
      assert candidates[i..][1..] == candidates[i + 1..];
      var c := candidates[i];
      if c.secret.value == presented {
        return if c.revoked || IsExpired(c.secret, now) then None else Some((c.org, c.scope));
      }
    }
    assert candidates[|candidates|..] == [];
    return None;
  }

  lemma {:induction false} VerifiedIff(candidates: seq<Candidate>, k: nat, now: int)
    requires k < |candidates|
    requires forall i, j :: 0 <= i < j < |candidates| ==> candidates[i].secret.value != candidates[j].secret.value
    ensures var c := candidates[k];
            Verified(candidates, c.secret.value, now) ==
            if c.revoked || IsExpired(c.secret, now) then None else Some((c.org, c.scope))
  {
    if k > 0 {
      assert candidates[0].secret.value != candidates[k].secret.value;
      VerifiedIff(candidates[1..], k - 1, now);
    }
  }

  /** What a complete rotation means for each old secret: the active one authenticates until the end of the overlap,
      every other stops at once. */
  lemma OldSecretAuthenticatesIff(secrets: seq<Secret>, minted: Secret, overlapEnd: int, budget: nat, i: nat,
                                  later: int)
    requires Completes(secrets, minted.createdAt, budget) && i < |secrets| && minted.createdAt <= later
    ensures var s := Rotate(secrets, minted, overlapEnd, budget)[i];
            !IsExpired(s, later) <==> secrets[i].expiresAt.None? && later < overlapEnd
    ensures Rotate(secrets, minted, overlapEnd, budget)[|secrets|] == minted
  {
    WritesGrow(secrets, minted.createdAt);
  }

  // ---- What one rotation does to each secret ----

  /** The secrets that can still authenticate, by position. */
  function StillLive(secrets: seq<Secret>, n: nat, now: int): set<int>
    requires n <= |secrets|
  {
    set i | 0 <= i < n && (secrets[i].expiresAt == None || now < secrets[i].expiresAt.value)
  }

  lemma {:induction false} WritesCountLive(secrets: seq<Secret>, n: nat, now: int)
    requires n <= |secrets|
    ensures WritesFor(secrets, n, now) == |StillLive(secrets, n, now)|
  {
    if n == 0 {
      assert StillLive(secrets, n, now) == {};
    } else {
      WritesCountLive(secrets, n - 1, now);
      if IsExpired(secrets[n - 1], now) {
        assert StillLive(secrets, n, now) == StillLive(secrets, n - 1, now);
      } else {
        assert StillLive(secrets, n, now) == StillLive(secrets, n - 1, now) + {n - 1};
      }
    }
  }

  /** A rotation with one write for each live secret and one more to spare appends the new secret, gives the active one
      the end of the overlap, ends any other live one at once, and touches no expired one. With fewer writes no secret
      is added. */
  lemma RotationDoes(secrets: seq<Secret>, minted: Secret, overlapEnd: int, budget: nat, i: nat)
    requires i < |secrets|
    ensures var now, after := minted.createdAt, Rotate(secrets, minted, overlapEnd, budget);
            if |StillLive(secrets, |secrets|, now)| < budget
            then && |after| == |secrets| + 1 && after[|secrets|] == minted
                 && after[i] == (if secrets[i].expiresAt == None then secrets[i].(expiresAt := Some(overlapEnd))
                                 else if now < secrets[i].expiresAt.value then secrets[i].(expiresAt := Some(now))
                                 else secrets[i])
            else |after| == |secrets|
  {
    WritesCountLive(secrets, |secrets|, minted.createdAt);
    WritesGrow(secrets, minted.createdAt);
    hide StillLive, WritesFor;
  }
}

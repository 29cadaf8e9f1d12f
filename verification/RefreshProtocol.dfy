/** Token refresh: any number of callers in any number of processes race on connections. A keyed mutex
    serializes the callers of one process; a conditional status flip guards the expiry event
    (server/internal/connections/refreshlock.go, refresh.go, expired_event.go). */
module RefreshProtocol {
  import opened Common

  datatype Status = Initiated | Active | Expired | Disconnected

  datatype Row = Row(status: Status, accessToken: string, refreshToken: string, tokenExpiresAt: Option<int>)

  const DEFAULT_TOKEN_TTL := 3600

  function TokenExpiryFrom(now: int, expiresInSeconds: int): int {
    now + (if expiresInSeconds > 0 then expiresInSeconds else DEFAULT_TOKEN_TTL)
  }

  predicate NeedsRefresh(row: Row, now: int) {
    row.tokenExpiresAt.None? || now > row.tokenExpiresAt.value
  }

  predicate NeedsProactiveRefresh(row: Row, now: int, lead: int) {
    row.tokenExpiresAt.None? || row.tokenExpiresAt.value <= now + lead
  }

  predicate DueForRefresh(row: Row, now: int, lead: int) {
    if lead <= 0 then NeedsRefresh(row, now) else NeedsProactiveRefresh(row, now, lead)
  }

  /** A provider that answers with no refresh token has not rotated it (section 6 of RFC 6749). */
  function RefreshTokens(row: Row, accessToken: string, refreshToken: string, expiresAt: int): Row {
    row.(accessToken := accessToken, refreshToken := if refreshToken != "" then refreshToken else row.refreshToken,
         tokenExpiresAt := Some(expiresAt))
  }

  type ConnectionId = nat
  type ProcessId = nat
  type CallerId = nat

  /** Where one refreshOnce call stands. Everything between Locked and Leaving runs under the mutex. */
  datatype Pc =
    | Waiting
    | Locked
    | HasRead(row: Row)
    | Granting(row: Row)
    | Writing(refreshed: Row)
    | Denied
    | Emitting
    | Leaving
    | Finished

  datatype Caller = Caller(process: ProcessId, conn: ConnectionId, force: bool, lead: int, pc: Pc)

  /** grants: refresh_token grants started; flips: ACTIVE-to-EXPIRED changes of the stored row; staleFlips: those
      of them made by a whole-row write from outside; events: connection.expired emitted; lost: emissions that
      failed. */
  datatype Tally = Tally(
    grants: map<ConnectionId, nat>,
    flips: map<ConnectionId, nat>,
    staleFlips: map<ConnectionId, nat>,
    events: map<ConnectionId, nat>,
    lost: map<ConnectionId, nat>)

  type Lock = (ProcessId, ConnectionId)

  datatype State = State(
    clock: int, rows: map<ConnectionId, Row>, callers: map<CallerId, Caller>, locks: map<Lock, CallerId>, tally: Tally)

  function LockOf(caller: Caller): Lock { (caller.process, caller.conn) }

  function Init(clock: int, rows: map<ConnectionId, Row>): State {
    State(clock, rows, map[], map[], Tally(map[], map[], map[], map[], map[]))
  }

  /** What one caller does next. Fails stands for any transient error: lookup, decryption, network, store. */
  datatype Move =
    | Acquire
    | Read
    | Gate
    | GrantSucceeds(accessToken: string, refreshToken: string, expiresIn: int)
    | GrantDenied
    | Fails
    | Write
    | Flip
    | Emit
    | EmitFails
    | Release

  /** OutsideWrite and OutsideDelete are whole-row writes by code that does not take the mutex. */
  datatype Step =
    | Begin(a: CallerId, process: ProcessId, conn: ConnectionId, force: bool, lead: int)
    | Moves(a: CallerId, move: Move)
    | ClockTo(t: int)
    | OutsideWrite(c: ConnectionId, row: Row)
    | OutsideDelete(c: ConnectionId)

  predicate CanMove(s: State, caller: Caller, move: Move) {
    match move
    case Acquire => caller.pc.Waiting? && LockOf(caller) !in s.locks
    case Read => caller.pc.Locked?
    case Gate => caller.pc.HasRead?
    case GrantSucceeds(_, _, _) => caller.pc.Granting?
    case GrantDenied => caller.pc.Granting?
    case Fails =>
      caller.pc.Locked? || caller.pc.HasRead? || caller.pc.Granting? || caller.pc.Writing? || caller.pc.Denied?
    case Write => caller.pc.Writing?
    case Flip => caller.pc.Denied?
    case Emit => caller.pc.Emitting?
    case EmitFails => caller.pc.Emitting?
    case Release => caller.pc.Leaving?
  }

  predicate PassesGate(caller: Caller, row: Row, now: int) {
    caller.force || DueForRefresh(row, now, caller.lead)
  }

  predicate StoredActive(rows: map<ConnectionId, Row>, c: ConnectionId) {
    c in rows && rows[c].status.Active?
  }

  function NextPc(s: State, caller: Caller, move: Move): Pc
    requires CanMove(s, caller, move)
  {
    match move
    case Acquire => Locked
    case Read => if StoredActive(s.rows, caller.conn) then HasRead(s.rows[caller.conn]) else Leaving
    case Gate => if PassesGate(caller, caller.pc.row, s.clock) then Granting(caller.pc.row) else Leaving
    case GrantSucceeds(access, refresh, expiresIn) =>
      Writing(RefreshTokens(caller.pc.row, access, refresh, TokenExpiryFrom(s.clock, expiresIn)))
    case GrantDenied => Denied
    case Fails => Leaving
    case Write => Leaving
    case Flip => if StoredActive(s.rows, caller.conn) then Emitting else Leaving
    case Emit => Leaving
    case EmitFails => Leaving
    case Release => Finished
  }

  /** Write updates the whole row if it still exists; Flip is the conditional status update. */
  function RowsAfter(s: State, caller: Caller, move: Move): map<ConnectionId, Row>
    requires CanMove(s, caller, move)
  {
    var c := caller.conn;
    match move
    case Write => if c in s.rows then s.rows[c := caller.pc.refreshed] else s.rows
    case Flip => if StoredActive(s.rows, c) then s.rows[c := s.rows[c].(status := Expired)] else s.rows
    case _ => s.rows
  }

  function LocksAfter(s: State, a: CallerId, caller: Caller, move: Move): map<Lock, CallerId> {
    match move
    case Acquire => s.locks[LockOf(caller) := a]
    case Release => s.locks - {LockOf(caller)}
    case _ => s.locks
  }

  function TallyAfter(s: State, caller: Caller, move: Move): Tally
    requires CanMove(s, caller, move)
  {
    var c := caller.conn;
    match move
    case Gate =>
      if PassesGate(caller, caller.pc.row, s.clock) then s.tally.(grants := Bump(s.tally.grants, c)) else s.tally
    case Flip => if StoredActive(s.rows, c) then s.tally.(flips := Bump(s.tally.flips, c)) else s.tally
    case Emit => s.tally.(events := Bump(s.tally.events, c))
    case EmitFails => s.tally.(lost := Bump(s.tally.lost, c))
    case _ => s.tally
  }

  function TallyOutsideWrite(s: State, c: ConnectionId, row: Row): Tally {
    if StoredActive(s.rows, c) && row.status.Expired?
    then s.tally.(flips := Bump(s.tally.flips, c), staleFlips := Bump(s.tally.staleFlips, c))
    else s.tally
  }

  /** One atomic step; a step that is not possible changes nothing, so every sequence of steps is a run. */
  function Apply(s: State, step: Step): State {
    match step
    case Begin(a, process, conn, force, lead) =>
      if a in s.callers then s else s.(callers := s.callers[a := Caller(process, conn, force, lead, Waiting)])
    case Moves(a, move) =>
      if a !in s.callers || !CanMove(s, s.callers[a], move) then s
      else
        var caller := s.callers[a];
        State(s.clock, RowsAfter(s, caller, move), s.callers[a := caller.(pc := NextPc(s, caller, move))],
              LocksAfter(s, a, caller, move), TallyAfter(s, caller, move))
    case ClockTo(t) => if t < s.clock then s else s.(clock := t)
    case OutsideWrite(c, row) => s.(rows := s.rows[c := row], tally := TallyOutsideWrite(s, c, row))
    case OutsideDelete(c) => s.(rows := s.rows - {c})
  }

  function After(s: State, steps: seq<Step>, n: nat): State
    requires n <= |steps|
  {
    if n == 0 then s else Apply(After(s, steps, n - 1), steps[n - 1])
  }

  // ---- Mutual exclusion ----

  predicate Holds(pc: Pc) { !pc.Waiting? && !pc.Finished? }

  /** The lock table names exactly the callers between Acquire and Release. */
  ghost predicate LocksAgree(callers: map<CallerId, Caller>, locks: map<Lock, CallerId>) {
    && (forall a :: a in callers && Holds(callers[a].pc) ==>
        LockOf(callers[a]) in locks && locks[LockOf(callers[a])] == a)
    && (forall k :: k in locks ==> locks[k] in callers && Holds(callers[locks[k]].pc) && k == LockOf(callers[locks[k]]))
  }

  lemma MoveKeepsLocks(s: State, a: CallerId, move: Move)
    requires LocksAgree(s.callers, s.locks) && a in s.callers && CanMove(s, s.callers[a], move)
    ensures LocksAgree(s.callers[a := s.callers[a].(pc := NextPc(s, s.callers[a], move))],
                       LocksAfter(s, a, s.callers[a], move))
  {
    hide RefreshTokens, TokenExpiryFrom, PassesGate, StoredActive;
  }

  lemma StepKeepsLocks(s: State, step: Step)
    requires LocksAgree(s.callers, s.locks)
    ensures LocksAgree(Apply(s, step).callers, Apply(s, step).locks)
  {
    hide RowsAfter, TallyAfter, TallyOutsideWrite, NextPc, LocksAfter, CanMove;
    if step.Moves? && step.a in s.callers && CanMove(s, s.callers[step.a], step.move) {
      MoveKeepsLocks(s, step.a, step.move);
    }
  }

  ghost predicate NobodyYet(s: State) { s.callers == map[] && s.locks == map[] }

  lemma {:induction false} RunKeepsLocks(s: State, steps: seq<Step>, n: nat)
    requires n <= |steps| && NobodyYet(s)
    ensures LocksAgree(After(s, steps, n).callers, After(s, steps, n).locks)
  {
    hide Apply;
    if n > 0 {
      RunKeepsLocks(s, steps, n - 1);
      StepKeepsLocks(After(s, steps, n - 1), steps[n - 1]);
    }
  }

  /** At most one caller of a process is inside the mutex of a connection, so at most one grant is in flight there. */
  lemma AtMostOneGrantInFlight(s: State, steps: seq<Step>, n: nat, a: CallerId, b: CallerId)
    requires n <= |steps| && NobodyYet(s)
    requires a in After(s, steps, n).callers && b in After(s, steps, n).callers
    requires var cs := After(s, steps, n).callers;
             cs[a].pc.Granting? && cs[b].pc.Granting? && LockOf(cs[a]) == LockOf(cs[b])
    ensures a == b
  {
    hide Apply;
    RunKeepsLocks(s, steps, n);
  }

  /** The keyed mutex itself: filled on demand, one mutex per connection for ever, never shared. */
  class Mutex {
    constructor () {}
  }

  class RefreshLocks {
    var byConn: map<ConnectionId, Mutex>

    ghost predicate Valid()
      reads this
    {
      forall i, j :: i in byConn && j in byConn && byConn[i] == byConn[j] ==> i == j
    }

    constructor ()
      ensures Valid() && byConn == map[]
    {
      byConn := map[];
    }

    method LockFor(id: ConnectionId) returns (m: Mutex)
      requires Valid()
      modifies this
      ensures Valid()
      ensures id in byConn && byConn[id] == m
      ensures byConn.Keys == old(byConn).Keys + {id}
      ensures forall j :: j in old(byConn) ==> byConn[j] == old(byConn)[j]
    {
      if id !in byConn {
        var created := new Mutex();
        byConn := byConn[id := created];
      }
      m := byConn[id];
    }
  }

  // ---- One event per expiry ----

  function EmittingOn(callers: map<CallerId, Caller>, c: ConnectionId): set<CallerId> {
    set a | a in callers && callers[a].conn == c && callers[a].pc.Emitting?
  }

  /** Every flip of the stored status is accounted for: emitted, lost, about to be emitted, or made by a stale
      whole-row write. No lock appears in it, so it speaks of callers in any number of processes. */
  ghost predicate FlipsAccounted(s: State, c: ConnectionId) {
    Count(s.tally.flips, c)
      == Count(s.tally.events, c) + Count(s.tally.lost, c) + Count(s.tally.staleFlips, c) + |EmittingOn(s.callers, c)|
  }

  lemma EmittingAfterUpdate(callers: map<CallerId, Caller>, a: CallerId, caller: Caller, c: ConnectionId)
    requires a in callers ==> callers[a].conn == caller.conn
    ensures var before := a in callers && callers[a].pc.Emitting? && caller.conn == c;
            var after := caller.pc.Emitting? && caller.conn == c;
            |EmittingOn(callers[a := caller], c)| + (if before then 1 else 0)
              == |EmittingOn(callers, c)| + (if after then 1 else 0)
  {
    SizesDifferByOne(EmittingOn(callers[a := caller], c), EmittingOn(callers, c), a);
  }

  lemma MoveKeepsFlipsAccounted(s: State, a: CallerId, move: Move, c: ConnectionId)
    requires FlipsAccounted(s, c) && a in s.callers && CanMove(s, s.callers[a], move)
    ensures FlipsAccounted(Apply(s, Moves(a, move)), c)
  {
    hide EmittingOn, RowsAfter, LocksAfter, StoredActive, PassesGate, RefreshTokens, TokenExpiryFrom, Bump;
    var caller := s.callers[a];
    EmittingAfterUpdate(s.callers, a, caller.(pc := NextPc(s, caller, move)), c);
    assert move.Emit? ==>
        Count(TallyAfter(s, caller, move).events, c) == Count(s.tally.events, c) + (if caller.conn == c then 1 else 0);
  }

  lemma StepKeepsFlipsAccounted(s: State, step: Step, c: ConnectionId)
    requires FlipsAccounted(s, c)
    ensures FlipsAccounted(Apply(s, step), c)
  {
    hide EmittingOn, RowsAfter, LocksAfter, StoredActive, CanMove, NextPc, TallyAfter, Bump;
    match step {
      case Begin(a, p, conn, force, lead) =>
        if a !in s.callers {
          EmittingAfterUpdate(s.callers, a, Caller(p, conn, force, lead, Waiting), c);
        }
      case Moves(a, move) =>
        if a in s.callers && CanMove(s, s.callers[a], move) {
          MoveKeepsFlipsAccounted(s, a, move, c);
        }
      case _ =>
    }
  }

  lemma {:induction false} RunKeepsFlipsAccounted(clock: int, rows: map<ConnectionId, Row>, steps: seq<Step>, n: nat,
                                                  c: ConnectionId)
    requires n <= |steps|
    ensures FlipsAccounted(After(Init(clock, rows), steps, n), c)
  {
    hide Apply;
    if n > 0 {
      RunKeepsFlipsAccounted(clock, rows, steps, n - 1, c);
      StepKeepsFlipsAccounted(After(Init(clock, rows), steps, n - 1), steps[n - 1], c);
    } else {
      assert EmittingOn(map[], c) == {};
    }
  }

  /** In every interleaving: never more events than flips, and exactly as many once nobody is still emitting,
      if no emission failed and no stale whole-row write did the flip. */
  lemma OneEventPerExpiry(clock: int, rows: map<ConnectionId, Row>, steps: seq<Step>, n: nat, c: ConnectionId)
    requires n <= |steps|
    ensures var s := After(Init(clock, rows), steps, n);
            && Count(s.tally.events, c) <= Count(s.tally.flips, c)
            && (Count(s.tally.events, c) == Count(s.tally.flips, c)
                <==> EmittingOn(s.callers, c) == {} && Count(s.tally.lost, c) == 0 && Count(s.tally.staleFlips, c) == 0)
  {
    hide Apply, EmittingOn;
    RunKeepsFlipsAccounted(clock, rows, steps, n, c);
    var e := EmittingOn(After(Init(clock, rows), steps, n).callers, c);
    assert |e| == 0 <==> e == {};
  }

  /** What a caller carries between Read and Write was ACTIVE when read. */
  ghost predicate CarriesActive(callers: map<CallerId, Caller>) {
    forall a :: a in callers ==>
      && (callers[a].pc.HasRead? || callers[a].pc.Granting? ==> callers[a].pc.row.status.Active?)
      && (callers[a].pc.Writing? ==> callers[a].pc.refreshed.status.Active?)
  }

  lemma StepKeepsCarriesActive(s: State, step: Step)
    requires CarriesActive(s.callers)
    ensures CarriesActive(Apply(s, step).callers)
  {
    hide RowsAfter, LocksAfter, TallyAfter, PassesGate, TokenExpiryFrom, TallyOutsideWrite;
  }

  lemma {:induction false} RunKeepsCarriesActive(s: State, steps: seq<Step>, n: nat)
    requires n <= |steps| && NobodyYet(s)
    ensures CarriesActive(After(s, steps, n).callers)
  {
    hide Apply;
    if n > 0 {
      RunKeepsCarriesActive(s, steps, n - 1);
      StepKeepsCarriesActive(After(s, steps, n - 1), steps[n - 1]);
    }
  }

  predicate Expires(before: map<ConnectionId, Row>, after: map<ConnectionId, Row>, c: ConnectionId) {
    StoredActive(before, c) && c in after && after[c].status.Expired?
  }

  /** The tally counts exactly the ACTIVE-to-EXPIRED changes of the store, and inside the protocol only a caller
      whose grant the provider denied makes one: a transient failure never flips. */
  lemma FlipsOnlyAfterDenial(clock: int, rows: map<ConnectionId, Row>, steps: seq<Step>, n: nat, c: ConnectionId)
    requires n < |steps|
    ensures var s, t := After(Init(clock, rows), steps, n), After(Init(clock, rows), steps, n + 1);
            && Count(t.tally.flips, c) == Count(s.tally.flips, c) + (if Expires(s.rows, t.rows, c) then 1 else 0)
            && (Expires(s.rows, t.rows, c) ==>
                  || steps[n].OutsideWrite?
                  || (steps[n].Moves? && steps[n].move.Flip? && steps[n].a in s.callers
                      && s.callers[steps[n].a].pc.Denied?))
  {
    hide LocksAfter, NextPc, PassesGate, Apply;
    RunKeepsCarriesActive(Init(clock, rows), steps, n);
    var s, step := After(Init(clock, rows), steps, n), steps[n];
    StepFlipsCounted(s, step, c);
  }

  lemma StepFlipsCounted(s: State, step: Step, c: ConnectionId)
    requires CarriesActive(s.callers)
    ensures var t := Apply(s, step);
            && Count(t.tally.flips, c) == Count(s.tally.flips, c) + (if Expires(s.rows, t.rows, c) then 1 else 0)
            && (Expires(s.rows, t.rows, c) ==>
                  || step.OutsideWrite?
                  || (step.Moves? && step.move.Flip? && step.a in s.callers && s.callers[step.a].pc.Denied?))
  {
    hide LocksAfter, NextPc, PassesGate;
    if step.Moves? && step.a in s.callers && CanMove(s, s.callers[step.a], step.move) {
      assert s.callers[step.a].pc.Writing? ==> s.callers[step.a].pc.refreshed.status.Active?;
    }
  }

  // ---- Single flight ----

  /** No writes of c's row from outside the mutex, and its callers live in one process. */
  predicate Quiet(step: Step, c: ConnectionId, p: ProcessId) {
    match step
    case Begin(_, process, conn, _, _) => conn == c ==> process == p
    case OutsideWrite(d, _) => d != c
    case OutsideDelete(d) => d != c
    case _ => true
  }

  /** The mutex holder's copy of the row is the stored row. */
  predicate CopyCurrent(rows: map<ConnectionId, Row>, caller: Caller, c: ConnectionId) {
    match caller.pc
    case HasRead(row) => StoredActive(rows, c) && rows[c] == row
    case Granting(row) => StoredActive(rows, c) && rows[c] == row
    case Writing(refreshed) => StoredActive(rows, c)
    case Denied => StoredActive(rows, c)
    case _ => true
  }

  ghost predicate CopiesCurrent(s: State, c: ConnectionId, p: ProcessId) {
    && LocksAgree(s.callers, s.locks)
    && forall a :: a in s.callers && s.callers[a].conn == c ==>
         s.callers[a].process == p && CopyCurrent(s.rows, s.callers[a], c)
  }

  lemma MoveKeepsCopies(s: State, a: CallerId, move: Move, c: ConnectionId, p: ProcessId)
    requires CopiesCurrent(s, c, p) && a in s.callers && CanMove(s, s.callers[a], move)
    ensures CopiesCurrent(Apply(s, Moves(a, move)), c, p)
  {
    hide TallyAfter, PassesGate, RefreshTokens, TokenExpiryFrom;
    var caller := s.callers[a];
    var t := Apply(s, Moves(a, move));
    StepKeepsLocks(s, Moves(a, move));
    forall b | b in t.callers && t.callers[b].conn == c
      ensures t.callers[b].process == p && CopyCurrent(t.rows, t.callers[b], c)
    {
      if b != a && caller.conn == c && (move.Write? || move.Flip?) {
        OthersOutside(s, a, b);
      }
    }
  }

  /** While one caller is inside the mutex, every other caller of that mutex waits or has finished. */
  lemma OthersOutside(s: State, a: CallerId, b: CallerId)
    requires LocksAgree(s.callers, s.locks) && a in s.callers && b in s.callers && a != b
    requires LockOf(s.callers[a]) == LockOf(s.callers[b]) && Holds(s.callers[a].pc)
    ensures !Holds(s.callers[b].pc)
  {
  }

  lemma StepKeepsCopies(s: State, step: Step, c: ConnectionId, p: ProcessId)
    requires CopiesCurrent(s, c, p) && Quiet(step, c, p)
    ensures CopiesCurrent(Apply(s, step), c, p)
  {
    hide CanMove, NextPc, RowsAfter, TallyAfter, LocksAfter, TallyOutsideWrite;
    if step.Moves? {
      if step.a in s.callers && CanMove(s, s.callers[step.a], step.move) {
        MoveKeepsCopies(s, step.a, step.move, c, p);
      }
    } else {
      StepKeepsLocks(s, step);
    }
  }

  lemma {:induction false} RunKeepsCopies(s: State, steps: seq<Step>, n: nat, c: ConnectionId, p: ProcessId)
    requires n <= |steps| && NobodyYet(s)
    requires forall i :: 0 <= i < n ==> Quiet(steps[i], c, p)
    ensures CopiesCurrent(After(s, steps, n), c, p)
  {
    hide Apply, Quiet;
    if n > 0 {
      RunKeepsCopies(s, steps, n - 1, c, p);
      StepKeepsCopies(After(s, steps, n - 1), steps[n - 1], c, p);
    }
  }

  predicate PastGate(pc: Pc) { pc.Granting? || pc.Writing? || pc.Denied? || pc.Emitting? }

  predicate BeforeGate(pc: Pc) { pc.Waiting? || pc.Locked? || pc.HasRead? }

  predicate OutsideWindow(clock: int, lead: int, row: Row) {
    row.tokenExpiresAt.Some? && clock + (if lead > 0 then lead else 0) < row.tokenExpiresAt.value
  }

  /** A caller that is not forced asks only for a refresh within lead of the expiry. */
  predicate LeadWithin(caller: Caller, lead: int) { caller.force || caller.lead <= lead }

  predicate BeginsLeadWithin(step: Step, c: ConnectionId, lead: int) {
    step.Begin? && step.conn == c ==> step.force || step.lead <= lead
  }

  /** What the step stores for c, if it stores a refreshed row, stays fresh until then. */
  predicate StoresFresh(s: State, step: Step, c: ConnectionId, until: int, lead: int) {
    step.Moves? && step.move.Write? && step.a in s.callers && s.callers[step.a].conn == c
    && s.callers[step.a].pc.Writing?
    ==> OutsideWindow(until, lead, s.callers[step.a].pc.refreshed)
  }

  ghost predicate AllStoreFresh(s: State, steps: seq<Step>, i: nat, n: nat, c: ConnectionId, until: int, lead: int)
    requires n <= |steps|
    decreases n
  {
    i >= n || (AllStoreFresh(s, steps, i, n - 1, c, until, lead)
               && StoresFresh(After(s, steps, n - 1), steps[n - 1], c, until, lead))
  }

  /** The stored row is fresh until then, and whoever is past the gate was forced. */
  ghost predicate OnlyForcedPass(s: State, c: ConnectionId, until: int, lead: int) {
    && (StoredActive(s.rows, c) ==> OutsideWindow(until, lead, s.rows[c]))
    && forall a :: a in s.callers && s.callers[a].conn == c ==>
         && (BeforeGate(s.callers[a].pc) ==> LeadWithin(s.callers[a], lead))
         && (PastGate(s.callers[a].pc) ==> s.callers[a].force)
  }

  lemma StepKeepsOnlyForced(s: State, step: Step, c: ConnectionId, p: ProcessId, until: int, lead: int)
    requires CopiesCurrent(s, c, p) && OnlyForcedPass(s, c, until, lead) && s.clock <= until
    requires Quiet(step, c, p) && BeginsLeadWithin(step, c, lead) && StoresFresh(s, step, c, until, lead)
    ensures OnlyForcedPass(Apply(s, step), c, until, lead)
  {
    hide LocksAfter, LocksAgree, RefreshTokens, TokenExpiryFrom, TallyAfter, TallyOutsideWrite;
    if step.Moves? && step.a in s.callers && s.callers[step.a].conn == c {
      assert CopyCurrent(s.rows, s.callers[step.a], c);
    }
  }

  lemma {:induction false} OnlyForcedStays(s: State, steps: seq<Step>, i: nat, n: nat, c: ConnectionId, p: ProcessId,
                                           until: int, lead: int)
    requires i <= n <= |steps| && NobodyYet(s) && After(s, steps, n).clock <= until
    requires forall j :: 0 <= j < n ==> Quiet(steps[j], c, p)
    requires forall j :: i <= j < n ==> BeginsLeadWithin(steps[j], c, lead)
    requires AllStoreFresh(s, steps, i, n, c, until, lead)
    requires OnlyForcedPass(After(s, steps, i), c, until, lead)
    ensures OnlyForcedPass(After(s, steps, n), c, until, lead)
    decreases n
  {
    hide Apply, OnlyForcedPass, Quiet, BeginsLeadWithin, StoresFresh, CopiesCurrent;
    if i < n {
      ClockNeverGoesBack(After(s, steps, n - 1), steps[n - 1]);
      OnlyForcedStays(s, steps, i, n - 1, c, p, until, lead);
      RunKeepsCopies(s, steps, n - 1, c, p);
      StepKeepsOnlyForced(After(s, steps, n - 1), steps[n - 1], c, p, until, lead);
    }
  }

  /** Single flight. Step i stores a refreshed token for c that stays fresh until then, for any lead up to lead. Any
      number of callers wait or begin, forced ones among them, and whatever those store stays fresh as well. Then, in
      every interleaving, nobody but a forced caller gets past the gate. */
  lemma SingleFlight(s: State, steps: seq<Step>, i: nat, n: nat, a: CallerId, b: CallerId, c: ConnectionId,
                     p: ProcessId, until: int, lead: int)
    requires i < n <= |steps| && NobodyYet(s) && After(s, steps, n).clock <= until
    requires forall j :: 0 <= j < n ==> Quiet(steps[j], c, p)
    requires forall j :: i < j < n ==> BeginsLeadWithin(steps[j], c, lead)
    requires var t := After(s, steps, i);
             && steps[i] == Moves(a, Write) && a in t.callers && t.callers[a].conn == c && t.callers[a].pc.Writing?
             && forall w :: w in t.callers && t.callers[w].conn == c && t.callers[w].pc.Waiting? ==>
                  LeadWithin(t.callers[w], lead)
    requires AllStoreFresh(s, steps, i, n, c, until, lead)
    requires b in After(s, steps, n).callers && After(s, steps, n).callers[b].conn == c
               && PastGate(After(s, steps, n).callers[b].pc)
    ensures After(s, steps, n).callers[b].force
  {
    hide Apply, Quiet, BeginsLeadWithin, CopiesCurrent, OutsideWindow;
    RunKeepsCopies(s, steps, i, c, p);
    FirstStoresFresh(s, steps, i, n, c, until, lead);
    WriteLeavesFresh(After(s, steps, i), a, c, p, until, lead);
    OnlyForcedStays(s, steps, i + 1, n, c, p, until, lead);
  }

  lemma {:induction false} FirstStoresFresh(s: State, steps: seq<Step>, i: nat, n: nat, c: ConnectionId, until: int,
                                            lead: int)
    requires i < n <= |steps| && AllStoreFresh(s, steps, i, n, c, until, lead)
    ensures StoresFresh(After(s, steps, i), steps[i], c, until, lead)
    ensures AllStoreFresh(s, steps, i + 1, n, c, until, lead)
    decreases n
  {
    hide StoresFresh, Apply;
    if i < n - 1 {
      FirstStoresFresh(s, steps, i, n - 1, c, until, lead);
    }
  }

  lemma WriteLeavesFresh(t: State, a: CallerId, c: ConnectionId, p: ProcessId, until: int, lead: int)
    requires CopiesCurrent(t, c, p) && a in t.callers && t.callers[a].conn == c && t.callers[a].pc.Writing?
    requires OutsideWindow(until, lead, t.callers[a].pc.refreshed)
    requires forall w :: w in t.callers && t.callers[w].conn == c && t.callers[w].pc.Waiting? ==>
               LeadWithin(t.callers[w], lead)
    ensures OnlyForcedPass(Apply(t, Moves(a, Write)), c, until, lead)
  {
    hide OutsideWindow;
    var u := Apply(t, Moves(a, Write));
    assert CopyCurrent(t.rows, t.callers[a], c);
    forall b | b in u.callers && u.callers[b].conn == c && b != a
      ensures u.callers[b].pc.Waiting? || u.callers[b].pc.Finished?
    {
      assert t.callers[b].process == t.callers[a].process == p;
      OthersOutside(t, a, b);
    }
  }

  // ---- Windows without forced callers ----

  /** A caller that has not got past the gate asks only for a refresh within lead of the expiry. */
  predicate AsksWithin(caller: Caller, lead: int) { !caller.force && caller.lead <= lead }

  predicate BeginsWithin(step: Step, c: ConnectionId, lead: int) {
    step.Begin? && step.conn == c ==> !step.force && step.lead <= lead
  }

  /** The row is fresh until expiry and nobody is past the gate. */
  ghost predicate Settled(s: State, c: ConnectionId, row: Row, lead: int) {
    && c in s.rows && s.rows[c] == row && row.status.Active?
    && forall a :: a in s.callers && s.callers[a].conn == c ==>
         (BeforeGate(s.callers[a].pc) ==> AsksWithin(s.callers[a], lead)) && !PastGate(s.callers[a].pc)
  }

  lemma StepKeepsSettled(s: State, step: Step, c: ConnectionId, p: ProcessId, row: Row, lead: int)
    requires CopiesCurrent(s, c, p) && Settled(s, c, row, lead) && OutsideWindow(s.clock, lead, row)
    requires Quiet(step, c, p) && BeginsWithin(step, c, lead)
    ensures Settled(Apply(s, step), c, row, lead)
    ensures Count(Apply(s, step).tally.grants, c) == Count(s.tally.grants, c)
  {
    hide LocksAfter, LocksAgree, RefreshTokens, TokenExpiryFrom;
    if step.Moves? && step.a in s.callers && s.callers[step.a].conn == c && s.callers[step.a].pc.HasRead? {
      assert CopyCurrent(s.rows, s.callers[step.a], c);
      assert AsksWithin(s.callers[step.a], lead);
      assert !PassesGate(s.callers[step.a], s.callers[step.a].pc.row, s.clock);
    }
  }

  lemma ClockNeverGoesBack(s: State, step: Step)
    ensures s.clock <= Apply(s, step).clock
  {
    hide RowsAfter, TallyAfter, LocksAfter, NextPc, CanMove, TallyOutsideWrite;
  }

  lemma {:induction false} SettledStays(s: State, steps: seq<Step>, i: nat, n: nat, c: ConnectionId, p: ProcessId,
                                        row: Row, lead: int)
    requires i <= n <= |steps| && NobodyYet(s)
    requires forall j :: 0 <= j < n ==> Quiet(steps[j], c, p)
    requires forall j :: i <= j < n ==> BeginsWithin(steps[j], c, lead)
    requires Settled(After(s, steps, i), c, row, lead) && OutsideWindow(After(s, steps, n).clock, lead, row)
    ensures Settled(After(s, steps, n), c, row, lead)
    ensures Count(After(s, steps, n).tally.grants, c) == Count(After(s, steps, i).tally.grants, c)
    decreases n
  {
    hide Apply, Settled, Quiet, BeginsWithin, CopiesCurrent;
    if i < n {
      ClockNeverGoesBack(After(s, steps, n - 1), steps[n - 1]);
      SettledStays(s, steps, i, n - 1, c, p, row, lead);
      RunKeepsCopies(s, steps, n - 1, c, p);
      StepKeepsSettled(After(s, steps, n - 1), steps[n - 1], c, p, row, lead);
    }
  }

  /** If no forced caller waits or begins either, everybody reuses the token stored in step i: no further grant starts
      and the stored row stays, in every interleaving, until the clock reaches the expiry less the lead. */
  lemma UnforcedReuse(s: State, steps: seq<Step>, i: nat, n: nat, a: CallerId, c: ConnectionId, p: ProcessId, lead: int)
    requires i < n <= |steps| && NobodyYet(s)
    requires forall j :: 0 <= j < n ==> Quiet(steps[j], c, p)
    requires forall j :: i < j < n ==> BeginsWithin(steps[j], c, lead)
    requires var t := After(s, steps, i);
             && steps[i] == Moves(a, Write) && a in t.callers && t.callers[a].conn == c && t.callers[a].pc.Writing?
             && (forall b :: b in t.callers && t.callers[b].conn == c && t.callers[b].pc.Waiting? ==>
                 AsksWithin(t.callers[b], lead))
             && OutsideWindow(After(s, steps, n).clock, lead, t.callers[a].pc.refreshed)
    ensures Count(After(s, steps, n).tally.grants, c) == Count(After(s, steps, i).tally.grants, c)
    ensures c in After(s, steps, n).rows && After(s, steps, n).rows[c] == After(s, steps, i).callers[a].pc.refreshed
  {
    hide Apply, Quiet, BeginsWithin;
    RunKeepsCopies(s, steps, i, c, p);
    RunKeepsCarriesActive(s, steps, i);
    WriteSettles(After(s, steps, i), a, c, p, lead);
    SettledStays(s, steps, i + 1, n, c, p, After(s, steps, i).callers[a].pc.refreshed, lead);
  }

  lemma WriteSettles(t: State, a: CallerId, c: ConnectionId, p: ProcessId, lead: int)
    requires CopiesCurrent(t, c, p) && a in t.callers && t.callers[a].conn == c && t.callers[a].pc.Writing?
    requires t.callers[a].pc.refreshed.status.Active?
    requires forall b :: b in t.callers && t.callers[b].conn == c && t.callers[b].pc.Waiting? ==>
               AsksWithin(t.callers[b], lead)
    ensures Settled(Apply(t, Moves(a, Write)), c, t.callers[a].pc.refreshed, lead)
    ensures Apply(t, Moves(a, Write)).tally == t.tally
  {
    var u := Apply(t, Moves(a, Write));
    assert CopyCurrent(t.rows, t.callers[a], c);
    forall b | b in u.callers && u.callers[b].conn == c && b != a
      ensures u.callers[b].pc.Waiting? || u.callers[b].pc.Finished?
    {
      assert t.callers[b].process == t.callers[a].process == p;
      OthersOutside(t, a, b);
    }
  }

  /** A grant always presents the refresh token stored at that moment. */
  lemma GrantPresentsStoredToken(s: State, steps: seq<Step>, n: nat, a: CallerId, c: ConnectionId, p: ProcessId)
    requires n <= |steps| && NobodyYet(s)
    requires forall j :: 0 <= j < n ==> Quiet(steps[j], c, p)
    requires var t := After(s, steps, n); a in t.callers && t.callers[a].conn == c && t.callers[a].pc.Granting?
    ensures var t := After(s, steps, n); c in t.rows && t.callers[a].pc.row.refreshToken == t.rows[c].refreshToken
  {
    hide Apply, Quiet;
    RunKeepsCopies(s, steps, n, c, p);
    assert CopyCurrent(After(s, steps, n).rows, After(s, steps, n).callers[a], c);
  }

  // ---- Who passes the gate, and what a refresh stores ----

  /** In arithmetic: no recorded expiry, one that has passed, or, for a positive lead, one not after now plus lead. */
  predicate Stale(row: Row, now: int, lead: int) {
    || row.tokenExpiresAt == None
    || (lead <= 0 && now > row.tokenExpiresAt.value)
    || (lead > 0 && row.tokenExpiresAt.value <= now + lead)
  }

  /** A caller that has read the row starts a grant exactly when it is forced or the row is stale; otherwise it leaves
      with what is stored. */
  lemma GateIff(s: State, a: CallerId)
    requires a in s.callers && s.callers[a].pc.HasRead?
    ensures var caller, t := s.callers[a], Apply(s, Moves(a, Gate));
            var row, c := caller.pc.row, caller.conn;
            && t.callers == s.callers[a := caller.(pc := t.callers[a].pc)] && t.rows == s.rows
            && (t.callers[a].pc == Granting(row) <==> caller.force || Stale(row, s.clock, caller.lead))
            && (t.callers[a].pc == Granting(row) || t.callers[a].pc == Leaving)
            && Count(t.tally.grants, c)
               == Count(s.tally.grants, c) + (if t.callers[a].pc == Granting(row) then 1 else 0)
  {
  }

  predicate MovesInTurn(steps: seq<Step>, n: nat, a: CallerId) {
    n + 3 <= |steps| && steps[n..n + 3] == [Moves(a, Acquire), Moves(a, Read), Moves(a, Gate)]
  }

  /** In any run: a caller that finds the lock free and the stored row ACTIVE starts exactly one grant, of that row, if
      it is forced or the row is stale, and none otherwise. */
  lemma StaleRowIsRefreshed(s: State, steps: seq<Step>, n: nat, a: CallerId, c: ConnectionId)
    requires MovesInTurn(steps, n, a)
    requires var t := After(s, steps, n);
             && a in t.callers && t.callers[a].conn == c && t.callers[a].pc.Waiting?
             && (t.callers[a].process, c) !in t.locks && c in t.rows && t.rows[c].status == Active
    ensures var t, u := After(s, steps, n), After(s, steps, n + 3);
            var grants := t.callers[a].force || Stale(t.rows[c], t.clock, t.callers[a].lead);
            && a in u.callers && u.callers[a].pc == (if grants then Granting(t.rows[c]) else Leaving)
            && Count(u.tally.grants, c) == Count(t.tally.grants, c) + (if grants then 1 else 0)
            && u.rows == t.rows
  {
    hide Stale, DueForRefresh, Bump;
    var t := After(s, steps, n);
    assert steps[n] == steps[n..n + 3][0] && steps[n + 1] == steps[n..n + 3][1] && steps[n + 2] == steps[n..n + 3][2];
    AcquireThenRead(t, a, c);
    var read := Apply(Apply(t, steps[n]), steps[n + 1]);
    assert After(s, steps, n + 3) == Apply(After(s, steps, n + 2), steps[n + 2]);
    assert After(s, steps, n + 2) == Apply(After(s, steps, n + 1), steps[n + 1]);
    hide Apply, After;
    GateIff(read, a);
  }

  lemma AcquireThenRead(t: State, a: CallerId, c: ConnectionId)
    requires a in t.callers && t.callers[a].conn == c && t.callers[a].pc.Waiting?
    requires (t.callers[a].process, c) !in t.locks && c in t.rows && t.rows[c].status == Active
    ensures var read := Apply(Apply(t, Moves(a, Acquire)), Moves(a, Read));
            && read.rows == t.rows && read.clock == t.clock && read.tally == t.tally
            && a in read.callers && read.callers[a] == t.callers[a].(pc := HasRead(t.rows[c]))
  {
    hide PassesGate;
  }

  /** Whatever fails on the way, nothing is written, and the lock is freed for the next caller. */
  lemma FailureFreesLock(s: State, a: CallerId)
    requires a in s.callers && Holds(s.callers[a].pc) && !s.callers[a].pc.Leaving?
    ensures var caller := s.callers[a];
            var failed := Apply(s, Moves(a, if caller.pc == Emitting then EmitFails else Fails));
            var freed := Apply(failed, Moves(a, Release));
            && failed.callers == s.callers[a := caller.(pc := Leaving)] && failed.locks == s.locks
            && freed.callers == s.callers[a := caller.(pc := Finished)]
            && freed.locks == s.locks - {(caller.process, caller.conn)} && freed.rows == s.rows
  {
  }

  /** Callers begin by waiting, time only goes on, and a write to a row that is gone by then brings nothing back. */
  lemma AroundTheLock(s: State, a: CallerId, caller: Caller, c: ConnectionId, row: Row, t: int)
    ensures Apply(s, Begin(a, caller.process, c, caller.force, caller.lead)) ==
            if a in s.callers then s
            else s.(callers := s.callers[a := Caller(caller.process, c, caller.force, caller.lead, Waiting)])
    ensures Apply(s, ClockTo(t)) == s.(clock := if s.clock <= t then t else s.clock)
    ensures Apply(s, OutsideWrite(c, row)).rows == s.rows[c := row]
    ensures Apply(s, OutsideDelete(c)) == s.(rows := s.rows - {c})
    ensures a in s.callers && s.callers[a].pc.Writing? && s.callers[a].conn !in s.rows ==>
              Apply(s, Moves(a, Write)).rows == s.rows
  {
  }

  /** Step g: a's grant is answered. Step i: a writes. If the row is still there it then holds the new access token, the
      new refresh token or, if none was sent, the old one, and the expiry the answer gave, an hour if it gave none. */
  lemma RefreshStores(s: State, steps: seq<Step>, g: nat, i: nat, a: CallerId, c: ConnectionId)
    requires g < i < |steps| && steps[g].Moves? && steps[g].a == a && steps[g].move.GrantSucceeds?
    requires var t := After(s, steps, g); a in t.callers && t.callers[a].conn == c && t.callers[a].pc.Granting?
    requires Writes(After(s, steps, i), steps[i], a) && c in After(s, steps, i).rows
    ensures var before, move := After(s, steps, g).callers[a].pc.row, steps[g].move;
            var rows := After(s, steps, i + 1).rows;
            && rows.Keys == After(s, steps, i).rows.Keys
            && rows[c].status == before.status && rows[c].accessToken == move.accessToken
            && rows[c].refreshToken == (if move.refreshToken != "" then move.refreshToken else before.refreshToken)
            && rows[c].tokenExpiresAt
               == Some(After(s, steps, g).clock + (if move.expiresIn > 0 then move.expiresIn else 3600))
            && forall d :: d in After(s, steps, i).rows && d != c ==> rows[d] == After(s, steps, i).rows[d]
  {
    hide Apply;
    var t := After(s, steps, g);
    var refreshed := GrantAnswered(t, a, steps[g].move);
    assert steps[g] == Moves(a, steps[g].move);
    assert After(s, steps, g + 1) == Apply(t, steps[g]);
    StaysPastGrant(s, steps, g + 1, i, a, c, refreshed);
    WriteStores(After(s, steps, i), a);
    assert After(s, steps, i + 1) == Apply(After(s, steps, i), steps[i]);
  }

  lemma GrantAnswered(t: State, a: CallerId, move: Move) returns (refreshed: Row)
    requires a in t.callers && t.callers[a].pc.Granting? && move.GrantSucceeds?
    ensures var after, row := Apply(t, Moves(a, move)), t.callers[a].pc.row;
            && a in after.callers && after.callers[a] == t.callers[a].(pc := Writing(refreshed))
            && refreshed == Row(row.status, move.accessToken,
                                if move.refreshToken != "" then move.refreshToken else row.refreshToken,
                                Some(t.clock + (if move.expiresIn > 0 then move.expiresIn else 3600)))
  {
    hide TallyAfter;
    refreshed := RefreshTokens(t.callers[a].pc.row, move.accessToken, move.refreshToken,
                               TokenExpiryFrom(t.clock, move.expiresIn));
  }

  lemma WriteStores(t: State, a: CallerId)
    requires a in t.callers && t.callers[a].pc.Writing? && t.callers[a].conn in t.rows
    ensures Apply(t, Moves(a, Write)).rows == t.rows[t.callers[a].conn := t.callers[a].pc.refreshed]
  {
  }

  /** A denied grant expires the connection and emits one event: denial, flip and emission in turn, whatever else the
      row holds. If the row is no longer ACTIVE by then, nothing is flipped or emitted. */
  lemma DenialExpires(s: State, a: CallerId, c: ConnectionId)
    requires a in s.callers && s.callers[a].conn == c && s.callers[a].pc.Granting?
    ensures var denied := Apply(Apply(s, Moves(a, GrantDenied)), Moves(a, Flip));
            var t := Apply(denied, Moves(a, Emit));
            if c in s.rows && s.rows[c].status == Active
            then t.rows == s.rows[c := s.rows[c].(status := Expired)]
                 && Count(t.tally.events, c) == Count(s.tally.events, c) + 1 && t.callers[a].pc == Leaving
            else t.rows == s.rows && t.tally == s.tally && t.callers[a].pc == Leaving
  {
    hide LocksAgree;
  }

  // ---- Rotated refresh tokens ----

  /** The provider hands out a token of c again. */
  predicate Reissues(s: State, step: Step, c: ConnectionId, token: string) {
    && step.Moves? && step.move.GrantSucceeds? && step.a in s.callers && s.callers[step.a].conn == c
    && step.move.refreshToken == token
  }

  ghost predicate NeverReissued(s: State, steps: seq<Step>, i: nat, n: nat, c: ConnectionId, token: string)
    requires n <= |steps|
    decreases n
  {
    i >= n || (NeverReissued(s, steps, i, n - 1, c, token) && !Reissues(After(s, steps, n - 1), steps[n - 1], c, token))
  }

  /** Neither the store nor anybody about to write it has the token. */
  ghost predicate Retired(s: State, c: ConnectionId, token: string) {
    && c in s.rows && s.rows[c].refreshToken != token
    && forall a :: a in s.callers && s.callers[a].conn == c && s.callers[a].pc.Writing? ==>
         s.callers[a].pc.refreshed.refreshToken != token
  }

  lemma StepKeepsRetired(s: State, step: Step, c: ConnectionId, p: ProcessId, token: string)
    requires CopiesCurrent(s, c, p) && Retired(s, c, token) && Quiet(step, c, p) && !Reissues(s, step, c, token)
    ensures Retired(Apply(s, step), c, token)
  {
    hide LocksAfter, LocksAgree, TallyAfter, TallyOutsideWrite, TokenExpiryFrom, PassesGate;
    if step.Moves? && step.a in s.callers {
      assert s.callers[step.a].conn == c ==> CopyCurrent(s.rows, s.callers[step.a], c);
    }
  }

  lemma {:induction false} RetiredStays(s: State, steps: seq<Step>, i: nat, n: nat, c: ConnectionId, p: ProcessId,
                                        token: string)
    requires i <= n <= |steps| && NobodyYet(s)
    requires forall j :: 0 <= j < n ==> Quiet(steps[j], c, p)
    requires NeverReissued(s, steps, i, n, c, token)
    requires Retired(After(s, steps, i), c, token)
    ensures Retired(After(s, steps, n), c, token)
    decreases n
  {
    hide Apply, Quiet, Retired, CopiesCurrent, Reissues;
    if i < n {
      RetiredStays(s, steps, i, n - 1, c, p, token);
      RunKeepsCopies(s, steps, n - 1, c, p);
      StepKeepsRetired(After(s, steps, n - 1), steps[n - 1], c, p, token);
    }
  }

  /** A caller that has its tokens writes those or nothing. */
  predicate PastGrant(s: State, a: CallerId, c: ConnectionId, refreshed: Row) {
    && a in s.callers && s.callers[a].conn == c
    && (s.callers[a].pc == Writing(refreshed) || s.callers[a].pc.Leaving? || s.callers[a].pc.Finished?)
  }

  lemma {:induction false} StaysPastGrant(s: State, steps: seq<Step>, i: nat, n: nat, a: CallerId, c: ConnectionId,
                                          refreshed: Row)
    requires i <= n <= |steps| && PastGrant(After(s, steps, i), a, c, refreshed)
    ensures PastGrant(After(s, steps, n), a, c, refreshed)
    decreases n
  {
    hide RowsAfter, LocksAfter, TallyAfter, TallyOutsideWrite;
    if i < n {
      StaysPastGrant(s, steps, i, n - 1, a, c, refreshed);
    }
  }

  lemma WriteRetires(s: State, a: CallerId, c: ConnectionId, p: ProcessId, token: string)
    requires CopiesCurrent(s, c, p) && a in s.callers && s.callers[a].conn == c && s.callers[a].pc.Writing?
    requires s.callers[a].pc.refreshed.refreshToken != token
    ensures Retired(Apply(s, Moves(a, Write)), c, token)
  {
    hide TallyAfter;
    assert CopyCurrent(s.rows, s.callers[a], c);
    forall b | b in s.callers && s.callers[b].conn == c && b != a ensures !s.callers[b].pc.Writing? {
      assert s.callers[b].process == s.callers[a].process == p;
      OthersOutside(s, a, b);
    }
  }

  /** The step is a successful grant of a's on c that rotates the token it presented. */
  predicate Rotates(s: State, step: Step, a: CallerId, c: ConnectionId) {
    && step.Moves? && step.a == a && step.move.GrantSucceeds?
    && a in s.callers && s.callers[a].conn == c && s.callers[a].pc.Granting?
    && step.move.refreshToken != "" && step.move.refreshToken != s.callers[a].pc.row.refreshToken
  }

  predicate Writes(s: State, step: Step, a: CallerId) {
    step == Moves(a, Write) && a in s.callers && s.callers[a].pc.Writing?
  }

  predicate Presents(s: State, a: CallerId, c: ConnectionId, token: string) {
    a in s.callers && s.callers[a].conn == c && s.callers[a].pc.Granting? && s.callers[a].pc.row.refreshToken == token
  }

  /** Step g: a's grant presents the token, succeeds and rotates it. Step i: a writes the row. From then on no grant
      presents that token again, in any interleaving, unless the provider issues it again. */
  lemma WrittenRotationRetires(s: State, steps: seq<Step>, g: nat, i: nat, n: nat, a: CallerId, b: CallerId,
                               c: ConnectionId, p: ProcessId, token: string)
    requires g < i < n <= |steps| && NobodyYet(s)
    requires forall j :: 0 <= j < n ==> Quiet(steps[j], c, p)
    requires Presents(After(s, steps, g), a, c, token) && Rotates(After(s, steps, g), steps[g], a, c)
    requires Writes(After(s, steps, i), steps[i], a)
    requires NeverReissued(s, steps, i + 1, n, c, token)
    ensures !Presents(After(s, steps, n), b, c, token)
  {
    hide Apply, Quiet, Reissues, Retired, CopiesCurrent;
    RotationThenWrite(s, steps, g, i, a, c, token);
    RunKeepsCopies(s, steps, i, c, p);
    WriteRetires(After(s, steps, i), a, c, p, token);
    RetiredStays(s, steps, i + 1, n, c, p, token);
    if Presents(After(s, steps, n), b, c, token) {
      StoredTokenGranted(s, steps, n, b, c, p, token);
    }
  }

  lemma RotationThenWrite(s: State, steps: seq<Step>, g: nat, i: nat, a: CallerId, c: ConnectionId, token: string)
    requires g < i < |steps| && Presents(After(s, steps, g), a, c, token) && Rotates(After(s, steps, g), steps[g], a, c)
    requires Writes(After(s, steps, i), steps[i], a)
    ensures After(s, steps, i).callers[a].conn == c && After(s, steps, i).callers[a].pc.refreshed.refreshToken != token
  {
    hide Apply;
    var refreshed := GrantAnswered(After(s, steps, g), a, steps[g].move);
    assert steps[g] == Moves(a, steps[g].move);
    assert After(s, steps, g + 1) == Apply(After(s, steps, g), steps[g]);
    StaysPastGrant(s, steps, g + 1, i, a, c, refreshed);
  }

  lemma StoredTokenGranted(s: State, steps: seq<Step>, n: nat, b: CallerId, c: ConnectionId, p: ProcessId,
                           token: string)
    requires n <= |steps| && NobodyYet(s) && Presents(After(s, steps, n), b, c, token)
    requires forall j :: 0 <= j < n ==> Quiet(steps[j], c, p)
    ensures !Retired(After(s, steps, n), c, token)
  {
    hide Apply, Quiet;
    GrantPresentsStoredToken(s, steps, n, b, c, p);
  }

  /** Without the write the rotated token is presented again: a's grant succeeds, its write fails, and the next caller
      that is due presents what the provider has already replaced. */
  lemma UnwrittenRotationReuses(t: State, a: CallerId, b: CallerId, c: ConnectionId, p: ProcessId, access: string,
                                refresh: string, expiresIn: int)
    requires CopiesCurrent(t, c, p) && a in t.callers && b in t.callers
               && t.callers[a].conn == c && t.callers[b].conn == c
    requires t.callers[a].pc.Granting? && t.callers[b].pc.Waiting?
    requires PassesGate(t.callers[b], t.callers[a].pc.row, t.clock)
    ensures var left := Apply(Apply(Apply(t, Moves(a, GrantSucceeds(access, refresh, expiresIn))), Moves(a, Fails)),
                              Moves(a, Release));
            var again := Apply(Apply(Apply(left, Moves(b, Acquire)), Moves(b, Read)), Moves(b, Gate));
            Presents(again, b, c, t.callers[a].pc.row.refreshToken)
  {
    hide Apply, Presents, PassesGate, CanMove;
    FailedWriteLeavesRow(t, a, b, c, p, access, refresh, expiresIn);
    var left := Apply(Apply(Apply(t, Moves(a, GrantSucceeds(access, refresh, expiresIn))), Moves(a, Fails)),
                      Moves(a, Release));
    NextCallerPresents(left, b, c, t.callers[a].pc.row);
  }

  lemma FailedWriteLeavesRow(t: State, a: CallerId, b: CallerId, c: ConnectionId, p: ProcessId, access: string,
                             refresh: string, expiresIn: int)
    requires CopiesCurrent(t, c, p) && a in t.callers && b in t.callers
               && t.callers[a].conn == c && t.callers[b].conn == c
    requires t.callers[a].pc.Granting? && t.callers[b].pc.Waiting?
    ensures var left := Apply(Apply(Apply(t, Moves(a, GrantSucceeds(access, refresh, expiresIn))), Moves(a, Fails)),
                              Moves(a, Release));
            && StoredActive(left.rows, c) && left.rows[c] == t.callers[a].pc.row && left.clock == t.clock
            && b in left.callers && left.callers[b] == t.callers[b] && LockOf(t.callers[b]) !in left.locks
  {
    hide RefreshTokens, TokenExpiryFrom, DueForRefresh, TallyAfter, TallyOutsideWrite;
    assert CopyCurrent(t.rows, t.callers[a], c);
    assert LockOf(t.callers[a]) == LockOf(t.callers[b]);
  }

  lemma NextCallerPresents(s: State, b: CallerId, c: ConnectionId, row: Row)
    requires b in s.callers && s.callers[b].conn == c && s.callers[b].pc.Waiting? && LockOf(s.callers[b]) !in s.locks
    requires StoredActive(s.rows, c) && s.rows[c] == row && PassesGate(s.callers[b], row, s.clock)
    ensures var again := Apply(Apply(Apply(s, Moves(b, Acquire)), Moves(b, Read)), Moves(b, Gate));
            Presents(again, b, c, row.refreshToken)
  {
    hide DueForRefresh, TallyAfter, TallyOutsideWrite;
  }
}

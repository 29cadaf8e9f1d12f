/** OAuth callbacks that race: each looks its state up, marks it consumed by a conditional update, reads its connection,
    exchanges the code and writes the row, while other callbacks and every other operation go on
    (server/internal/connections/oauth.go, driven/bun/repository.go). */
module CallbackRace {
  import opened Common
  import opened ConnectHandshake

  type CallerId = nat

  /** Looked: the state was unused and unexpired when read. Won: this caller's update marked it. Exchanging: the row has
      been read. Writing: tokens are in hand, and row is what will be written. */
  datatype Pc =
    | Arrived
    | Looked
    | Won
    | Exchanging(row: Connection)
    | Writing(row: Connection)
    | Succeeded
    | Denied
    | Ended(error: Error)

  datatype Caller = Caller(state: StateId, pc: Pc)

  /** ledger: the stores and what was issued and minted. winners: whose update marked each state. */
  datatype Race = Race(ledger: Ledger, callers: map<CallerId, Caller>, winners: map<StateId, CallerId>)

  datatype Move =
    | Look
    | Mark
    | ReadRow
    | Exchange(reply: Reply)
    | Fail
    | Write

  /** Others stands for any other operation on connections and states, whole callbacks of other processes included. */
  datatype Action = Arrives(a: CallerId, state: StateId) | Moves(a: CallerId, move: Move, at: int) | Others(t: Timed)

  predicate CanMove(caller: Caller, move: Move) {
    match move
    case Look => caller.pc.Arrived?
    case Mark => caller.pc.Looked?
    case ReadRow => caller.pc.Won?
    case Exchange(_) => caller.pc.Exchanging?
    case Fail =>
      caller.pc.Arrived? || caller.pc.Looked? || caller.pc.Won? || caller.pc.Exchanging? || caller.pc.Writing?
    case Write => caller.pc.Writing?
  }

  /** The conditional update affects a row: the state is there and not consumed. */
  predicate MarkTakes(w: World, state: StateId) { state in w.states && w.states[state].consumedAt.None? }

  function NextPc(l: Ledger, caller: Caller, move: Move, now: int): Pc
    requires CanMove(caller, move)
  {
    match move
    case Look =>
      var error := StateError(l.w, caller.state, now);
      if error.Some? then Ended(error.value) else Looked
    case Mark => if MarkTakes(l.w, caller.state) then Won else Ended(StateAlreadyUsed)
    case ReadRow =>
      if caller.state in l.w.states && l.w.states[caller.state].conn in l.w.connections
      then Exchanging(l.w.connections[l.w.states[caller.state].conn]) else Ended(StateUnknown)
    case Exchange(reply) =>
      (match reply
       case Refused => Denied
       case ExchangeFailed => Ended(TokenExchangeFailed)
       case Exchanged(tokens) => Writing(Activated(caller.pc.row, tokens, now)))
    case Fail => Ended(PortFailed)
    case Write => Succeeded
  }

  /** The final write replaces the whole row, if the connection still exists. */
  function WorldAfterMove(w: World, caller: Caller, move: Move, now: int): World
    requires CanMove(caller, move)
  {
    match move
    case Mark => if MarkTakes(w, caller.state) then Consumed(w, caller.state, now) else w
    case Write =>
      if caller.pc.row.identity.id in w.connections
      then w.(connections := w.connections[caller.pc.row.identity.id := caller.pc.row]) else w
    case _ => w
  }

  function Act(r: Race, action: Action): Race {
    match action
    case Arrives(a, state) => if a in r.callers then r else r.(callers := r.callers[a := Caller(state, Arrived)])
    case Moves(a, move, at) =>
      if a !in r.callers || !CanMove(r.callers[a], move) || at < r.ledger.clock then r
      else
        var caller := r.callers[a];
        Race(r.ledger.(w := WorldAfterMove(r.ledger.w, caller, move, at), clock := at),
             r.callers[a := caller.(pc := NextPc(r.ledger, caller, move, at))],
             if move.Mark? && MarkTakes(r.ledger.w, caller.state) then r.winners[caller.state := a] else r.winners)
    case Others(t) => r.(ledger := Next(r.ledger, t))
  }

  function After(clock: int, actions: seq<Action>, n: nat): Race
    requires n <= |actions|
  {
    if n == 0 then Race(Start(clock), map[], map[]) else Act(After(clock, actions, n - 1), actions[n - 1])
  }

  /** Ids, tokens and states are fresh when minted. */
  ghost predicate AllMintedFresh(clock: int, actions: seq<Action>, n: nat)
    requires n <= |actions|
  {
    n == 0 || (AllMintedFresh(clock, actions, n - 1)
               && (actions[n - 1].Others? ==> Fresh(After(clock, actions, n - 1).ledger, actions[n - 1].t)))
  }

  // ---- What every step keeps ----

  predicate PastMark(pc: Pc) { pc.Won? || pc.Exchanging? || pc.Writing? || pc.Succeeded? || pc.Denied? }

  /** A row a caller carries is one the connection's history allows: same identity, and a connect token on record. */
  ghost predicate Rooted(l: Ledger, row: Connection) {
    TokensDated(l, row) && row.identity.id in l.identities && l.identities[row.identity.id] == row.identity
  }

  ghost predicate CallerKept(r: Race, a: CallerId) {
    a in r.callers ==>
      var caller := r.callers[a];
      && (PastMark(caller.pc) ==> caller.state in r.winners && r.winners[caller.state] == a)
      && (caller.pc.Exchanging? ==> Rooted(r.ledger, caller.pc.row) && BoundTo(r.ledger, caller.state, caller.pc.row))
      && (caller.pc.Writing? ==> Rooted(r.ledger, caller.pc.row) && BoundTo(r.ledger, caller.state, caller.pc.row))
  }

  /** The row is of the connection the state was minted for. */
  predicate BoundTo(l: Ledger, state: StateId, row: Connection) {
    state in l.mints && l.mints[state].row.identity.id == row.identity.id
  }

  ghost predicate CallersKept(r: Race) { forall a: CallerId :: CallerKept(r, a) }

  ghost predicate WinnersKept(r: Race) {
    forall s :: s in r.winners ==> s in r.ledger.w.states && r.ledger.w.states[s].consumedAt.Some?
  }

  ghost predicate Kept(r: Race) {
    ConnectionsKept(r.ledger) && StatesKept(r.ledger) && CallersKept(r) && WinnersKept(r)
  }

  lemma RootedStays(l: Ledger, t: Timed, row: Connection)
    requires Rooted(l, row) && Fresh(l, t)
    ensures Rooted(Next(l, t), row)
  {
    DatesStay(l, t, row);
    hide WorldAfter, MintedBy, Consumes, TokensDated;
  }

  lemma OthersKeepCaller(r: Race, t: Timed, a: CallerId)
    requires CallerKept(r, a) && Fresh(r.ledger, t)
    ensures CallerKept(Act(r, Others(t)), a)
  {
    hide Next, Fresh, TokensDated, Rooted;
    if a in r.callers && (r.callers[a].pc.Exchanging? || r.callers[a].pc.Writing?) {
      RootedStays(r.ledger, t, r.callers[a].pc.row);
      MintsStay(r.ledger, t, r.callers[a].state);
    }
  }

  lemma OthersKeep(r: Race, t: Timed)
    requires Kept(r) && Fresh(r.ledger, t)
    ensures Kept(Act(r, Others(t)))
  {
    StepKeepsConnections(r.ledger, t);
    StepKeepsStates(r.ledger, t);
    forall a: CallerId ensures CallerKept(Act(r, Others(t)), a) {
      OthersKeepCaller(r, t, a);
    }
    forall s | s in r.winners
      ensures s in Next(r.ledger, t).w.states && Next(r.ledger, t).w.states[s].consumedAt.Some?
    {
      ConsumedStays(r.ledger, t, s);
    }
    hide Next, ConnectionsKept, StatesKept, CallerKept, Fresh;
  }

  lemma MoveKeepsConnections(r: Race, a: CallerId, move: Move, at: int)
    requires Kept(r) && a in r.callers && CanMove(r.callers[a], move)
    ensures ConnectionsKept(Act(r, Moves(a, move, at)).ledger)
  {
    assert CallerKept(r, a);
    hide CallersKept, WinnersKept, NextPc, StatesKept;
  }

  lemma MoveKeepsStates(r: Race, a: CallerId, move: Move, at: int)
    requires Kept(r) && a in r.callers && CanMove(r.callers[a], move)
    ensures StatesKept(Act(r, Moves(a, move, at)).ledger)
  {
    hide CallersKept, WinnersKept, NextPc, ConnectionsKept;
  }

  lemma MoveKeepsWinners(r: Race, a: CallerId, move: Move, at: int)
    requires WinnersKept(r)
    ensures WinnersKept(Act(r, Moves(a, move, at)))
  {
    hide NextPc;
  }

  /** The mover's own facts. */
  lemma MoveKeepsMover(r: Race, a: CallerId, move: Move, at: int)
    requires Kept(r)
    ensures CallerKept(Act(r, Moves(a, move, at)), a)
  {
    assert CallerKept(r, a);
    hide CallersKept, WinnersKept, TokenExpiryFrom, StateError;
  }

  /** Another caller keeps what it won, because a state already won cannot be marked again. */
  lemma MoveKeepsOther(r: Race, a: CallerId, move: Move, at: int, b: CallerId)
    requires Kept(r) && a != b
    ensures CallerKept(Act(r, Moves(a, move, at)), b)
  {
    assert CallerKept(r, b);
    hide CallersKept, ConnectionsKept, StatesKept, NextPc, TokensDated;
  }

  lemma ActKeeps(r: Race, action: Action)
    requires Kept(r) && (action.Others? ==> Fresh(r.ledger, action.t))
    ensures Kept(Act(r, action))
  {
    match action {
      case Arrives(a, state) =>
        forall b: CallerId ensures CallerKept(Act(r, action), b) {
          assert CallerKept(r, b);
        }
        hide ConnectionsKept, StatesKept;
      case Moves(a, move, at) =>
        if a in r.callers && CanMove(r.callers[a], move) && at >= r.ledger.clock {
          MoveKeepsConnections(r, a, move, at);
          MoveKeepsStates(r, a, move, at);
          MoveKeepsWinners(r, a, move, at);
          forall b: CallerId ensures CallerKept(Act(r, action), b) {
            if b == a {
              MoveKeepsMover(r, a, move, at);
            } else {
              MoveKeepsOther(r, a, move, at, b);
            }
          }
        }
      case Others(t) => OthersKeep(r, t);
    }
  }

  lemma {:induction false} RunKeeps(clock: int, actions: seq<Action>, n: nat)
    requires n <= |actions| && AllMintedFresh(clock, actions, n)
    ensures Kept(After(clock, actions, n))
  {
    hide Act, Fresh, ConnectionsKept, StatesKept;
    if n > 0 {
      RunKeeps(clock, actions, n - 1);
      ActKeeps(After(clock, actions, n - 1), actions[n - 1]);
    } else {
      StartKept(clock);
    }
  }

  lemma StartKept(clock: int)
    ensures Kept(Race(Start(clock), map[], map[]))
  {
  }

  // ---- Single use under concurrency ----

  lemma WinnerStays(r: Race, action: Action, s: StateId)
    requires WinnersKept(r) && s in r.winners
    ensures s in Act(r, action).winners && Act(r, action).winners[s] == r.winners[s]
  {
    hide Next, NextPc, WorldAfterMove;
  }

  lemma {:induction false} WinnersStay(clock: int, actions: seq<Action>, i: nat, n: nat, s: StateId)
    requires i <= n <= |actions| && AllMintedFresh(clock, actions, n) && s in After(clock, actions, i).winners
    ensures s in After(clock, actions, n).winners
              && After(clock, actions, n).winners[s] == After(clock, actions, i).winners[s]
    decreases n
  {
    hide Act, Fresh, ConnectionsKept, StatesKept, CallersKept, WinnersKept;
    if i < n {
      WinnersStay(clock, actions, i, n - 1, s);
      RunKeeps(clock, actions, n - 1);
      WinnerStays(After(clock, actions, n - 1), actions[n - 1], s);
    }
  }

  lemma {:induction false} FreshBefore(clock: int, actions: seq<Action>, i: nat, n: nat)
    requires i <= n <= |actions| && AllMintedFresh(clock, actions, n)
    ensures AllMintedFresh(clock, actions, i)
    decreases n
  {
    hide Act, Fresh;
    if i < n {
      FreshBefore(clock, actions, i, n - 1);
    }
  }

  /** Over a whole run, however callbacks interleave with each other and with every other operation, only one caller
      that presents a state ever gets past its mark, and so exchanges a code or activates a connection for it: not even
      one that comes after the first has failed. */
  lemma OneCallbackPerState(clock: int, actions: seq<Action>, i: nat, n: nat, a: CallerId, b: CallerId)
    requires i <= n <= |actions| && AllMintedFresh(clock, actions, n)
    requires var was, now := After(clock, actions, i), After(clock, actions, n);
             && a in was.callers && b in now.callers && was.callers[a].state == now.callers[b].state
             && PastMark(was.callers[a].pc) && PastMark(now.callers[b].pc)
    ensures a == b
  {
    hide After, AllMintedFresh, ConnectionsKept, StatesKept, Rooted, WinnersKept;
    FreshBefore(clock, actions, i, n);
    RunKeeps(clock, actions, i);
    RunKeeps(clock, actions, n);
    assert CallerKept(After(clock, actions, i), a) && CallerKept(After(clock, actions, n), b);
    WinnersStay(clock, actions, i, n, After(clock, actions, i).callers[a].state);
  }

  /** The action is the write of a caller that won a state minted for c. */
  predicate WinnerWrites(r: Race, action: Action, c: ConnectionId) {
    && action.Moves? && action.move.Write? && action.a in r.callers && r.callers[action.a].pc.Writing?
    && var state := r.callers[action.a].state;
       && state in r.winners && r.winners[state] == action.a
       && state in r.ledger.w.states && r.ledger.w.states[state].consumedAt.Some? && r.ledger.w.states[state].conn == c
  }

  /** In every step of every run of racing callbacks, a connection becomes ACTIVE only by the write of the caller that
      won a state minted for it, or by a whole callback elsewhere, bounded as the handshake says. */
  lemma OnlyWinnersActivate(clock: int, actions: seq<Action>, n: nat, c: ConnectionId)
    requires n < |actions| && AllMintedFresh(clock, actions, n + 1)
    requires BecomesActive(After(clock, actions, n).ledger.w, After(clock, actions, n + 1).ledger.w, c)
    ensures var r, action := After(clock, actions, n), actions[n];
            WinnerWrites(r, action, c) || (action.Others? && ByCallback(r.ledger, action.t, c))
  {
    hide Act, Fresh, Kept, BecomesActive, WinnerWrites, ByCallback;
    RunKeeps(clock, actions, n);
    var r, action := After(clock, actions, n), actions[n];
    assert After(clock, actions, n + 1) == Act(r, action);
    if action.Others? {
      OthersActivate(r, action.t, c);
    } else {
      MovesActivate(r, action, c);
    }
  }

  lemma OthersActivate(r: Race, t: Timed, c: ConnectionId)
    requires Kept(r) && BecomesActive(r.ledger.w, Act(r, Others(t)).ledger.w, c)
    ensures ByCallback(r.ledger, t, c)
  {
    hide Next, ConnectionsKept, StatesKept, CallersKept, WinnersKept, BecomesActive, ByCallback, CallbackFor;
    OnlyCallbackActivates(r.ledger, t, c);
    CallbackIsBounded(r.ledger, t, c);
  }

  lemma MovesActivate(r: Race, action: Action, c: ConnectionId)
    requires Kept(r) && !action.Others? && BecomesActive(r.ledger.w, Act(r, action).ledger.w, c)
    ensures WinnerWrites(r, action, c)
  {
    hide NextPc, ConnectionsKept, TokensDated, CallersKept;
    if action.Moves? && action.a in r.callers {
      assert CallerKept(r, action.a) by {
        CallerIsKept(r, action.a);
      }
    }
  }

  lemma CallerIsKept(r: Race, a: CallerId)
    requires CallersKept(r)
    ensures CallerKept(r, a)
  {
  }

  /** The row a callback writes is its state's own connection under its unchanged identity, whatever happened to the
      stored row between the read and the write. */
  lemma WrittenRowIsTheStatesOwn(clock: int, actions: seq<Action>, n: nat, a: CallerId)
    requires n <= |actions| && AllMintedFresh(clock, actions, n)
    requires a in After(clock, actions, n).callers && After(clock, actions, n).callers[a].pc.Writing?
    ensures var r := After(clock, actions, n);
            var caller := r.callers[a];
            && caller.state in r.ledger.w.states && r.ledger.w.states[caller.state].consumedAt.Some?
            && r.ledger.w.states[caller.state].conn == caller.pc.row.identity.id
            && caller.pc.row.identity.id in r.ledger.identities
            && r.ledger.identities[caller.pc.row.identity.id] == caller.pc.row.identity
            && caller.pc.row.status.Active?
  {
    RunKeeps(clock, actions, n);
    WritesActivate(clock, actions, n, a);
    var r := After(clock, actions, n);
    hide After, ConnectionsKept, TokensDated;
    assert CallerKept(r, a);
  }

  lemma {:induction false} WritesActivate(clock: int, actions: seq<Action>, n: nat, a: CallerId)
    requires n <= |actions| && a in After(clock, actions, n).callers && After(clock, actions, n).callers[a].pc.Writing?
    ensures After(clock, actions, n).callers[a].pc.row.status.Active?
  {
    hide Next, WorldAfterMove, StateError, MarkTakes;
    if n > 0 {
      var before := After(clock, actions, n - 1);
      if a in before.callers && before.callers[a].pc.Writing? {
        WritesActivate(clock, actions, n - 1, a);
      }
    }
  }

  // ---- What the winner stores ----

  /** A caller that has its tokens writes that row or nothing. */
  predicate PastExchange(r: Race, a: CallerId, state: StateId, row: Connection) {
    && a in r.callers && r.callers[a].state == state
    && (r.callers[a].pc == Writing(row) || r.callers[a].pc.Succeeded? || r.callers[a].pc.Ended?)
  }

  lemma {:induction false} StaysPastExchange(clock: int, actions: seq<Action>, i: nat, n: nat, a: CallerId,
                                             state: StateId, row: Connection)
    requires i <= n <= |actions| && PastExchange(After(clock, actions, i), a, state, row)
    ensures PastExchange(After(clock, actions, n), a, state, row)
    decreases n
  {
    hide Next, WorldAfterMove, MarkTakes;
    if i < n {
      StaysPastExchange(clock, actions, i, n - 1, a, state, row);
    }
  }

  lemma ExchangeCarriesTokens(r: Race, a: CallerId, tokens: Tokens, at: int) returns (row: Connection)
    requires a in r.callers && r.callers[a].pc.Exchanging? && at >= r.ledger.clock
    ensures HoldsTokens(row, r.callers[a].pc.row, tokens, at)
    ensures PastExchange(Act(r, Moves(a, Exchange(Exchanged(tokens)), at)), a, r.callers[a].state, row)
  {
    hide WorldAfterMove, MarkTakes;
    row := Activated(r.callers[a].pc.row, tokens, at);
  }

  lemma WriteStoresRow(r: Race, a: CallerId, at: int)
    requires a in r.callers && r.callers[a].pc.Writing? && at >= r.ledger.clock
    requires r.callers[a].pc.row.identity.id in r.ledger.w.connections
    ensures var w, row := r.ledger.w, r.callers[a].pc.row;
            Act(r, Moves(a, Write, at)).ledger.w == w.(connections := w.connections[row.identity.id := row])
  {
  }

  predicate ExchangedBy(action: Action, a: CallerId) {
    action.Moves? && action.a == a && action.move.Exchange? && action.move.reply.Exchanged?
  }

  predicate Writes(r: Race, action: Action, a: CallerId) {
    action.Moves? && action.a == a && action.move.Write? && a in r.callers && r.callers[a].pc.Writing?
    && action.at >= r.ledger.clock
  }

  /** Step g: a's code is exchanged for tokens. Step i: a writes. If its connection still exists it then holds those
      tokens over the row as it was read, no other row changes, and its link is refused as completed. */
  lemma WinnerStoresTokens(clock: int, actions: seq<Action>, g: nat, i: nat, a: CallerId, c: ConnectionId)
    requires g < i < |actions| && ExchangedBy(actions[g], a) && Writes(After(clock, actions, i), actions[i], a)
    requires var r := After(clock, actions, g);
             && a in r.callers && r.callers[a].pc.Exchanging? && r.callers[a].pc.row.identity.id == c
             && actions[g].at >= r.ledger.clock
    requires c in After(clock, actions, i).ledger.w.connections
    ensures var read, tokens := After(clock, actions, g).callers[a].pc.row, actions[g].move.reply.tokens;
            var before, w := After(clock, actions, i).ledger.w, After(clock, actions, i + 1).ledger.w;
            && w.states == before.states && w.connections.Keys == before.connections.Keys
            && HoldsTokens(w.connections[c], read, tokens, actions[g].at)
            && (forall d :: d in before.connections && d != c ==> w.connections[d] == before.connections[d])
            && forall page, later {:trigger OpenConnectPage(w, Some(c), page, later)} ::
                 OpenConnectPage(w, Some(c), page, later).1 == Failed(ConnectLinkAlreadyCompleted)
  {
    hide Act, OpenConnectPage;
    var r := After(clock, actions, g);
    var row := ExchangeCarriesTokens(r, a, actions[g].move.reply.tokens, actions[g].at);
    assert After(clock, actions, g + 1) == Act(r, actions[g]);
    StaysPastExchange(clock, actions, g + 1, i, a, r.callers[a].state, row);
    WriteStoresRow(After(clock, actions, i), a, actions[i].at);
    assert After(clock, actions, i + 1) == Act(After(clock, actions, i), actions[i]);
    UsedLinkIsRefused(After(clock, actions, i + 1).ledger.w, c);
  }

  lemma UsedLinkIsRefused(w: World, c: ConnectionId)
    requires c in w.connections && w.connections[c].connectTokenUsed
    ensures forall page, later {:trigger OpenConnectPage(w, Some(c), page, later)} ::
              OpenConnectPage(w, Some(c), page, later).1 == Failed(ConnectLinkAlreadyCompleted)
  {
  }

  /** A caller nobody gets in the way of, with a stored, unused, unexpired state of a stored connection, looks, marks,
      reads, exchanges and writes: it succeeds, and its connection holds the tokens. */
  lemma LoneCallbackSucceeds(r: Race, a: CallerId, tokens: Tokens, at: int)
    requires at >= r.ledger.clock && a in r.callers && r.callers[a].pc == Arrived
    requires var w, state := r.ledger.w, r.callers[a].state;
             && state != "" && state in w.states
             && w.states[state].consumedAt == None && at <= w.states[state].expiresAt
             && w.states[state].conn in w.connections
             && w.connections[w.states[state].conn].identity.id == w.states[state].conn
    ensures var marked := Act(Act(r, Moves(a, Look, at)), Moves(a, Mark, at));
            var exchanged := Act(Act(marked, Moves(a, ReadRow, at)), Moves(a, Exchange(Exchanged(tokens)), at));
            var after := Act(exchanged, Moves(a, Write, at));
            var c := r.ledger.w.states[r.callers[a].state].conn;
            && a in after.callers && after.callers[a].pc == Succeeded
            && c in after.ledger.w.connections
            && HoldsTokens(after.ledger.w.connections[c], r.ledger.w.connections[c], tokens, at)
  {
    LooksAndMarks(r, a, at);
    var marked := Act(Act(r, Moves(a, Look, at)), Moves(a, Mark, at));
    ReadsAndExchanges(marked, a, tokens, at);
    var exchanged := Act(Act(marked, Moves(a, ReadRow, at)), Moves(a, Exchange(Exchanged(tokens)), at));
    WriteStoresRow(exchanged, a, at);
    WriteSucceeds(exchanged, a, at);
    hide Act, HoldsTokens;
  }

  lemma LooksAndMarks(r: Race, a: CallerId, at: int)
    requires at >= r.ledger.clock && a in r.callers && r.callers[a].pc == Arrived
    requires var w, state := r.ledger.w, r.callers[a].state;
             state != "" && state in w.states && w.states[state].consumedAt == None && at <= w.states[state].expiresAt
    ensures var marked, state := Act(Act(r, Moves(a, Look, at)), Moves(a, Mark, at)), r.callers[a].state;
            && a in marked.callers && marked.callers[a] == Caller(state, Won) && marked.ledger.clock == at
            && marked.ledger.w.connections == r.ledger.w.connections
            && state in marked.ledger.w.states
            && marked.ledger.w.states[state] == r.ledger.w.states[state].(consumedAt := Some(at))
  {
  }

  lemma ReadsAndExchanges(r: Race, a: CallerId, tokens: Tokens, at: int)
    requires at == r.ledger.clock && a in r.callers && r.callers[a].pc == Won && r.callers[a].state in r.ledger.w.states
    requires r.ledger.w.states[r.callers[a].state].conn in r.ledger.w.connections
    ensures var exchanged := Act(Act(r, Moves(a, ReadRow, at)), Moves(a, Exchange(Exchanged(tokens)), at));
            var c := r.ledger.w.states[r.callers[a].state].conn;
            && exchanged.ledger.w == r.ledger.w && exchanged.ledger.clock == at
            && a in exchanged.callers && exchanged.callers[a].pc.Writing?
            && HoldsTokens(exchanged.callers[a].pc.row, r.ledger.w.connections[c], tokens, at)
  {
  }

  lemma WriteSucceeds(r: Race, a: CallerId, at: int)
    requires at >= r.ledger.clock && a in r.callers && r.callers[a].pc.Writing?
    ensures a in Act(r, Moves(a, Write, at)).callers && Act(r, Moves(a, Write, at)).callers[a].pc == Succeeded
  {
  }

  /** Where a port fails, the callback ends with that failure and stores nothing more; with a state that is missing,
      unknown, used or expired it ends at its first look; and a connection deleted meanwhile is not written again. */
  lemma FailureStoresNothing(r: Race, a: CallerId, at: int)
    requires at >= r.ledger.clock && a in r.callers
    ensures var pc := r.callers[a].pc;
            !pc.Ended? && !pc.Denied? && !pc.Succeeded? ==>
              Act(r, Moves(a, Fail, at)) == r.(ledger := r.ledger.(clock := at),
                                               callers := r.callers[a := r.callers[a].(pc := Ended(PortFailed))])
    ensures var w, state := r.ledger.w, r.callers[a].state;
            && r.callers[a].pc == Arrived
            && (|| state == "" || state !in w.states
                || w.states[state].consumedAt != None || at > w.states[state].expiresAt)
            ==> var looked := Act(r, Moves(a, Look, at));
                looked.callers[a].pc.Ended? && looked.ledger.w == w
    ensures r.callers[a].pc.Writing? && r.callers[a].pc.row.identity.id !in r.ledger.w.connections ==>
              Act(r, Moves(a, Write, at)).ledger.w == r.ledger.w
  {
  }

  lemma CallersArrive(r: Race, a: CallerId, state: StateId)
    ensures Act(r, Arrives(a, state)) ==
            if a in r.callers then r else r.(callers := r.callers[a := Caller(state, Arrived)])
  {
  }
}

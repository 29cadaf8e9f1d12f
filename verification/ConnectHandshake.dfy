/** The OAuth handshake: connect tokens, single-use states, and the callback that activates a connection
    (server/internal/connections/oauth.go, types.go, facade.go; sections 4.1.2 and 10.12 of RFC 6749). */
module ConnectHandshake {
  import opened Common

  const CONNECT_LINK_TTL := 3600
  const OAUTH_STATE_TTL := 600
  const DEFAULT_TOKEN_TTL := 3600

  type ConnectionId = string
  type StateId = string

  datatype Status = Initiated | Active | Expired | Disconnected

  /** What a connection is about; nothing may ever change it. */
  datatype Identity = Identity(id: ConnectionId, org: string, user: string, integration: string, provider: string)

  datatype Connection = Connection(
    identity: Identity, status: Status, redirectURI: string,
    connectToken: string, connectTokenExpiresAt: int, connectTokenUsed: bool,
    accessToken: string, refreshToken: string, tokenExpiresAt: Option<int>, account: string, params: string,
    reconciledAt: Option<int>)

  datatype Tokens = Tokens(access: string, refresh: string, expiresIn: int, account: string)

  function NewConnection(identity: Identity, redirectURI: string, token: string, now: int): Connection {
    Connection(identity, Initiated, redirectURI, token, now + CONNECT_LINK_TTL, false, "", "", None, "", "", None)
  }

  function TokenExpiryFrom(now: int, expiresIn: int): int {
    now + (if expiresIn > 0 then expiresIn else DEFAULT_TOKEN_TTL)
  }

  function Activated(c: Connection, t: Tokens, now: int): Connection {
    c.(status := Active, accessToken := t.access, refreshToken := t.refresh,
       tokenExpiresAt := Some(TokenExpiryFrom(now, t.expiresIn)), account := t.account, connectTokenUsed := true)
  }

  /** A provider that answers with no refresh token has not rotated it (section 6 of RFC 6749). */
  function RefreshTokens(c: Connection, access: string, refresh: string, expiresAt: int): Connection {
    c.(accessToken := access, refreshToken := if refresh != "" then refresh else c.refreshToken,
       tokenExpiresAt := Some(expiresAt))
  }

  function MarkReconciled(c: Connection, now: int): Connection { c.(reconciledAt := Some(now)) }

  predicate CanReconnect(c: Connection) { !c.status.Initiated? }

  function PrepareReconnect(c: Connection, token: string, redirectURI: string, expiresAt: int): Connection {
    c.(connectToken := token, redirectURI := redirectURI, connectTokenExpiresAt := expiresAt,
       connectTokenUsed := false, params := "")
  }

  datatype OAuthState = OAuthState(conn: ConnectionId, expiresAt: int, consumedAt: Option<int>)

  datatype World = World(connections: map<ConnectionId, Connection>, states: map<StateId, OAuthState>)

  datatype Error =
    | ConnectLinkInvalid | ConnectLinkAlreadyCompleted | ConnectLinkExpired | UnknownProvider | MissingRequiredParams
    | StateMissing | StateUnknown | StateAlreadyUsed | StateExpired | TokenExchangeFailed
    | NotFound | ReconnectNotAllowed | PortFailed

  datatype Answer = Failed(error: Error) | ParamsForm | Forward(state: StateId) | Redirect(success: bool) | Done

  /** What the provider's definition and the ports say during one page request. */
  datatype Page = Page(definitionKnown: bool, hasExpectedParams: bool, portsWork: bool, newState: StateId)

  // ---- Opening the connect page ----

  /** found is what FindByConnectToken answered. */
  function ValidateConnectToken(w: World, found: Option<ConnectionId>, now: int): Option<Error> {
    if found.None? || found.value !in w.connections then Some(ConnectLinkInvalid)
    else if w.connections[found.value].connectTokenUsed then Some(ConnectLinkAlreadyCompleted)
    else if now > w.connections[found.value].connectTokenExpiresAt then Some(ConnectLinkExpired)
    else None
  }

  function BuildForwardingView(w: World, c: ConnectionId, page: Page, now: int): (World, Answer) {
    if !page.portsWork then (w, Failed(PortFailed))
    else (w.(states := w.states[page.newState := OAuthState(c, now + OAUTH_STATE_TTL, None)]), Forward(page.newState))
  }

  function OpenConnectPage(w: World, found: Option<ConnectionId>, page: Page, now: int): (World, Answer) {
    var error := ValidateConnectToken(w, found, now);
    if error.Some? then (w, Failed(error.value))
    else if !page.definitionKnown then (w, Failed(UnknownProvider))
    else if page.hasExpectedParams && w.connections[found.value].params == "" then (w, ParamsForm)
    else BuildForwardingView(w, found.value, page, now)
  }

  /** encrypted is None when encrypting the values fails; saves says whether the row's update lands. */
  function SubmitParams(w: World, found: Option<ConnectionId>, page: Page, missing: bool, encrypted: Option<string>,
                        saves: bool, now: int)
    : (World, Answer)
  {
    var error := ValidateConnectToken(w, found, now);
    if error.Some? then (w, Failed(error.value))
    else if !page.definitionKnown then (w, Failed(UnknownProvider))
    else if missing then (w, Failed(MissingRequiredParams))
    else if encrypted.None? || !saves then (w, Failed(PortFailed))
    else
      var updated := w.connections[found.value].(params := encrypted.value);
      BuildForwardingView(w.(connections := w.connections[found.value := updated]), found.value, page, now)
  }

  // ---- The callback ----

  function StateError(w: World, state: StateId, now: int): Option<Error> {
    if state == "" then Some(StateMissing)
    else if state !in w.states then Some(StateUnknown)
    else if w.states[state].consumedAt.Some? then Some(StateAlreadyUsed)
    else if now > w.states[state].expiresAt then Some(StateExpired)
    else None
  }

  function Consumed(w: World, state: StateId, now: int): World
    requires state in w.states
  {
    w.(states := w.states[state := w.states[state].(consumedAt := Some(now))])
  }

  /** What the provider sent back: a refusal, or a code whose exchange fails or yields tokens. */
  datatype Reply = Refused | ExchangeFailed | Exchanged(tokens: Tokens)

  function HandleCallback(w: World, state: StateId, reply: Reply, saves: bool, now: int): (World, Answer) {
    var error := StateError(w, state, now);
    if error.Some? then (w, Failed(error.value))
    else
      var after, c := Consumed(w, state, now), w.states[state].conn;
      if c !in w.connections then (after, Failed(StateUnknown))
      else if reply.Refused? then (after, Redirect(false))
      else if reply.ExchangeFailed? then (after, Failed(TokenExchangeFailed))
      else if !saves then (after, Failed(PortFailed))
      else (after.(connections := after.connections[c := Activated(w.connections[c], reply.tokens, now)]),
            Redirect(true))
  }

  // ---- The rest of the lifecycle ----

  function Initiate(w: World, identity: Identity, redirectURI: string, token: string, now: int): World {
    w.(connections := w.connections[identity.id := NewConnection(identity, redirectURI, token, now)])
  }

  function Reconnect(w: World, c: ConnectionId, token: string, redirectURI: string, now: int): (World, Answer) {
    if c !in w.connections then (w, Failed(NotFound))
    else if !CanReconnect(w.connections[c]) then (w, Failed(ReconnectNotAllowed))
    else
      var prepared := PrepareReconnect(w.connections[c], token, redirectURI, now + CONNECT_LINK_TTL);
      (w.(connections := w.connections[c := prepared]), Done)
  }

  function SetStatus(w: World, c: ConnectionId, status: Status): (World, Answer) {
    if c !in w.connections then (w, Failed(NotFound))
    else (w.(connections := w.connections[c := w.connections[c].(status := status)]), Done)
  }

  /** A successful refresh grant; one that finds the connection not ACTIVE returns it as it is. */
  function Refresh(w: World, c: ConnectionId, access: string, refresh: string, expiresIn: int, now: int)
    : (World, Answer)
  {
    if c !in w.connections then (w, Failed(NotFound))
    else if !w.connections[c].status.Active? then (w, Done)
    else
      var refreshed := RefreshTokens(w.connections[c], access, refresh, TokenExpiryFrom(now, expiresIn));
      (w.(connections := w.connections[c := refreshed]), Done)
  }

  function Reconcile(w: World, c: ConnectionId, now: int): (World, Answer) {
    if c !in w.connections then (w, Failed(NotFound))
    else (w.(connections := w.connections[c := MarkReconciled(w.connections[c], now)]), Done)
  }

  function Delete(w: World, c: ConnectionId): (World, Answer) {
    if c !in w.connections then (w, Failed(NotFound)) else (w.(connections := w.connections - {c}), Done)
  }

  /** The facade's handshake methods over its two stores. */
  class ConnectFlow {
    var connections: map<ConnectionId, Connection>
    var states: map<StateId, OAuthState>

    constructor ()
      ensures Stored() == World(map[], map[])
    {
      connections, states := map[], map[];
    }

    function Stored(): World
      reads this
    {
      World(connections, states)
    }

    method Forwarding(c: ConnectionId, page: Page, now: int) returns (answer: Answer)
      modifies this`states
      ensures (Stored(), answer) == BuildForwardingView(old(Stored()), c, page, now)
    {
      if !page.portsWork {
        return Failed(PortFailed);
      }
      states := states[page.newState := OAuthState(c, now + OAUTH_STATE_TTL, None)];
      return Forward(page.newState);
    }

    method Open(found: Option<ConnectionId>, page: Page, now: int) returns (answer: Answer)
      modifies this`states
      ensures (Stored(), answer) == OpenConnectPage(old(Stored()), found, page, now)
    {
      var error := ValidateConnectToken(Stored(), found, now);
      if error.Some? {
        return Failed(error.value);
      }
      if !page.definitionKnown {
        return Failed(UnknownProvider);
      }
      if page.hasExpectedParams && connections[found.value].params == "" {
        return ParamsForm;
      }
      answer := Forwarding(found.value, page, now);
    }

    method Submit(found: Option<ConnectionId>, page: Page, missing: bool, encrypted: Option<string>, saves: bool,
                  now: int)
      returns (answer: Answer)
      modifies this
      ensures (Stored(), answer) == SubmitParams(old(Stored()), found, page, missing, encrypted, saves, now)
    {
      var error := ValidateConnectToken(Stored(), found, now);
      if error.Some? {
        return Failed(error.value);
      }
      if !page.definitionKnown {
        return Failed(UnknownProvider);
      }
      if missing {
        return Failed(MissingRequiredParams);
      }
      if encrypted.None? || !saves {
        return Failed(PortFailed);
      }
      connections := connections[found.value := connections[found.value].(params := encrypted.value)];
      answer := Forwarding(found.value, page, now);
    }

    /** Marks a valid state consumed before anything else happens. */
    method ConsumeState(state: StateId, now: int) returns (answer: Option<Error>, c: ConnectionId)
      modifies this`states
      ensures var e := StateError(old(Stored()), state, now);
              if e.Some? then Stored() == old(Stored()) && answer == e
              else Stored() == Consumed(old(Stored()), state, now) && c == old(states)[state].conn
                   && answer == (if c in connections then None else Some(StateUnknown))
    {
      c := "";
      answer := StateError(Stored(), state, now);
      if answer.Some? {
        return;
      }
      states := states[state := states[state].(consumedAt := Some(now))];
      c := states[state].conn;
      if c !in connections {
        answer := Some(StateUnknown);
      }
    }

    method Callback(state: StateId, reply: Reply, saves: bool, now: int) returns (answer: Answer)
      modifies this
      ensures (Stored(), answer) == HandleCallback(old(Stored()), state, reply, saves, now)
    {
      var error, c := ConsumeState(state, now);
      if error.Some? {
        return Failed(error.value);
      }
      if reply.Refused? {
        return Redirect(false);
      }
      if reply.ExchangeFailed? {
        return Failed(TokenExchangeFailed);
      }
      if !saves {
        return Failed(PortFailed);
      }
      connections := connections[c := Activated(connections[c], reply.tokens, now)];
      return Redirect(true);
    }
  }

  // ---- Runs of atomic steps ----

  datatype Step =
    | Initiates(identity: Identity, redirectURI: string, token: string)
    | Opens(found: Option<ConnectionId>, page: Page)
    | Submits(found: Option<ConnectionId>, page: Page, missing: bool, encrypted: Option<string>, saves: bool)
    | CallsBack(state: StateId, reply: Reply, saves: bool)
    | Reconnects(c: ConnectionId, token: string, redirectURI: string)
    | Disables(c: ConnectionId)
    | Refreshes(c: ConnectionId, access: string, refresh: string, expiresIn: int)
    | RefreshExpires(c: ConnectionId)
    | Reconciles(c: ConnectionId)
    | Deletes(c: ConnectionId)

  function WorldAfter(w: World, step: Step, now: int): World {
    match step
    case Initiates(identity, uri, token) => Initiate(w, identity, uri, token, now)
    case Opens(found, page) => OpenConnectPage(w, found, page, now).0
    case Submits(found, page, missing, encrypted, saves) =>
      SubmitParams(w, found, page, missing, encrypted, saves, now).0
    case CallsBack(state, reply, saves) => HandleCallback(w, state, reply, saves, now).0
    case Reconnects(c, token, uri) => Reconnect(w, c, token, uri, now).0
    case Disables(c) => SetStatus(w, c, Disconnected).0
    case Refreshes(c, access, refresh, expiresIn) => Refresh(w, c, access, refresh, expiresIn, now).0
    case RefreshExpires(c) => SetStatus(w, c, Expired).0
    case Reconciles(c) => Reconcile(w, c, now).0
    case Deletes(c) => Delete(w, c).0
  }

  /** The circumstances a state was minted in: when, and the connection row at that moment. */
  datatype Mint = Mint(at: int, row: Connection)

  /** The stores, and what a run did to them: when each connect token was issued, how each state was minted, which
      states were consumed in order, and the identity each connection id was initiated with. */
  datatype Ledger = Ledger(
    w: World, clock: int, issued: map<string, int>, mints: map<StateId, Mint>,
    consumed: seq<StateId>, identities: map<ConnectionId, Identity>)

  datatype Timed = Timed(step: Step, at: int)

  /** Ids, tokens and states are fresh when minted, and the clock never goes back. */
  predicate Fresh(l: Ledger, t: Timed) {
    && t.at >= l.clock
    && match t.step
       case Initiates(identity, _, token) => identity.id !in l.identities && token !in l.issued
       case Reconnects(_, token, _) => token !in l.issued
       case Opens(_, page) => page.newState !in l.mints
       case Submits(_, page, _, _, _) => page.newState !in l.mints
       case _ => true
  }

  function MintedBy(w: World, step: Step, now: int): Option<StateId> {
    match step
    case Opens(found, page) => if OpenConnectPage(w, found, page, now).1.Forward? then Some(page.newState) else None
    case Submits(found, page, missing, encrypted, saves) =>
      if SubmitParams(w, found, page, missing, encrypted, saves, now).1.Forward? then Some(page.newState) else None
    case _ => None
  }

  predicate Consumes(w: World, step: Step, now: int) {
    step.CallsBack? && StateError(w, step.state, now).None?
  }

  function Next(l: Ledger, t: Timed): Ledger {
    var w, step, now := l.w, t.step, t.at;
    var minted := MintedBy(w, step, now);
    Ledger(
      WorldAfter(w, step, now), now,
      if step.Initiates? || step.Reconnects? then l.issued[step.token := now] else l.issued,
      if minted.Some? && step.found.Some? && step.found.value in w.connections
      then l.mints[minted.value := Mint(now, w.connections[step.found.value])] else l.mints,
      if Consumes(w, step, now) then l.consumed + [step.state] else l.consumed,
      if step.Initiates? then l.identities[step.identity.id := step.identity] else l.identities)
  }

  function Start(clock: int): Ledger {
    Ledger(World(map[], map[]), clock, map[], map[], [], map[])
  }

  function After(clock: int, run: seq<Timed>, n: nat): Ledger
    requires n <= |run|
  {
    if n == 0 then Start(clock) else Next(After(clock, run, n - 1), run[n - 1])
  }

  ghost predicate AllFresh(clock: int, run: seq<Timed>, n: nat)
    requires n <= |run|
  {
    n == 0 || (AllFresh(clock, run, n - 1) && Fresh(After(clock, run, n - 1), run[n - 1]))
  }

  // ---- What every run keeps ----

  ghost predicate TokensDated(l: Ledger, row: Connection) {
    row.connectToken in l.issued && row.connectTokenExpiresAt == l.issued[row.connectToken] + CONNECT_LINK_TTL
  }

  ghost predicate ConnectionsKept(l: Ledger) {
    forall c :: c in l.w.connections ==>
      && TokensDated(l, l.w.connections[c])
      && c in l.identities && l.identities[c] == l.w.connections[c].identity && l.identities[c].id == c
  }

  /** A stored state was minted from a row whose connect token was unused and unexpired. */
  ghost predicate StatesKept(l: Ledger) {
    forall s :: s in l.w.states ==>
      && s in l.mints
      && TokensDated(l, l.mints[s].row)
      && l.mints[s].row.identity.id == l.w.states[s].conn
      && !l.mints[s].row.connectTokenUsed
      && l.mints[s].at <= l.mints[s].row.connectTokenExpiresAt
      && l.w.states[s].expiresAt == l.mints[s].at + OAUTH_STATE_TTL
  }

  /** Each state is consumed at most once, and stays consumed. */
  ghost predicate ConsumedOnce(l: Ledger) {
    && (forall i :: 0 <= i < |l.consumed| ==> l.consumed[i] in l.w.states && l.w.states[l.consumed[i]].consumedAt.Some?)
    && (forall i, j :: 0 <= i < j < |l.consumed| ==> l.consumed[i] != l.consumed[j])
  }

  /** Where a stored connection comes from: it keeps its identity, and its token unless this step reissued it. */
  lemma ConnectionComesFrom(w: World, step: Step, now: int, c: ConnectionId)
    requires c in WorldAfter(w, step, now).connections
    ensures var row := WorldAfter(w, step, now).connections[c];
            if step.Initiates? && c == step.identity.id
            then row.identity == step.identity && row.connectToken == step.token
              && row.connectTokenExpiresAt == now + CONNECT_LINK_TTL
            else c in w.connections && row.identity == w.connections[c].identity
                 && (if step.Reconnects? && c == step.c && CanReconnect(w.connections[c])
                     then row.connectToken == step.token && row.connectTokenExpiresAt == now + CONNECT_LINK_TTL
                     else row.connectToken == w.connections[c].connectToken
                          && row.connectTokenExpiresAt == w.connections[c].connectTokenExpiresAt)
  {
    hide TokenExpiryFrom;
  }

  /** Where a stored state comes from: kept with its binding and expiry, or minted by this step from an unused,
      unexpired connect token. */
  lemma StateComesFrom(w: World, step: Step, now: int, s: StateId)
    requires s in WorldAfter(w, step, now).states
    ensures var state := WorldAfter(w, step, now).states[s];
            if MintedBy(w, step, now) == Some(s)
            then (step.Opens? || step.Submits?) && step.found.Some? && step.found.value in w.connections
                 && state.conn == step.found.value && state.expiresAt == now + OAUTH_STATE_TTL
                 && !w.connections[state.conn].connectTokenUsed
                 && now <= w.connections[state.conn].connectTokenExpiresAt
            else s in w.states && state.conn == w.states[s].conn && state.expiresAt == w.states[s].expiresAt
  {
    hide TokenExpiryFrom, NewConnection, Activated, PrepareReconnect;
  }

  lemma StepKeepsConnections(l: Ledger, t: Timed)
    requires ConnectionsKept(l) && Fresh(l, t)
    ensures ConnectionsKept(Next(l, t))
  {
    hide MintedBy, Consumes, WorldAfter;
    var l' := Next(l, t);
    forall c | c in l'.w.connections
      ensures TokensDated(l', l'.w.connections[c]) && c in l'.identities
              && l'.identities[c] == l'.w.connections[c].identity && l'.identities[c].id == c
    {
      ConnectionComesFrom(l.w, t.step, t.at, c);
    }
  }

  lemma DatesStay(l: Ledger, t: Timed, row: Connection)
    requires Fresh(l, t) && TokensDated(l, row)
    ensures TokensDated(Next(l, t), row)
  {
    hide MintedBy, Consumes, WorldAfter;
  }

  lemma StepKeepsStates(l: Ledger, t: Timed)
    requires ConnectionsKept(l) && StatesKept(l) && Fresh(l, t)
    ensures StatesKept(Next(l, t))
  {
    hide Consumes, WorldAfter, TokensDated;
    var l' := Next(l, t);
    forall s | s in l'.w.states
      ensures s in l'.mints && TokensDated(l', l'.mints[s].row) && l'.mints[s].row.identity.id == l'.w.states[s].conn
              && !l'.mints[s].row.connectTokenUsed && l'.mints[s].at <= l'.mints[s].row.connectTokenExpiresAt
              && l'.w.states[s].expiresAt == l'.mints[s].at + OAUTH_STATE_TTL
    {
      StateComesFrom(l.w, t.step, t.at, s);
      hide MintedBy;
      if MintedBy(l.w, t.step, t.at) == Some(s) {
        DatesStay(l, t, l.w.connections[t.step.found.value]);
      } else {
        DatesStay(l, t, l.mints[s].row);
        MintsStay(l, t, s);
      }
    }
  }

  lemma MintsStay(l: Ledger, t: Timed, s: StateId)
    requires s in l.mints && Fresh(l, t)
    ensures s in Next(l, t).mints && Next(l, t).mints[s] == l.mints[s]
  {
    hide Consumes, WorldAfter, OpenConnectPage, SubmitParams;
  }

  /** A consumed state is never forgotten or revived, because a freshly minted one never takes its place. */
  lemma ConsumedStays(l: Ledger, t: Timed, s: StateId)
    requires StatesKept(l) && Fresh(l, t) && s in l.w.states
    requires l.w.states[s].consumedAt.Some? || (Consumes(l.w, t.step, t.at) && t.step.state == s)
    ensures s in Next(l, t).w.states && Next(l, t).w.states[s].consumedAt.Some?
  {
    hide TokenExpiryFrom, NewConnection, Activated, PrepareReconnect, TokensDated;
    assert s in l.mints;
  }

  lemma StepKeepsConsumed(l: Ledger, t: Timed)
    requires StatesKept(l) && ConsumedOnce(l) && Fresh(l, t)
    ensures ConsumedOnce(Next(l, t))
  {
    hide WorldAfter, MintedBy, StatesKept, Fresh;
    var l' := Next(l, t);
    forall i | 0 <= i < |l'.consumed|
      ensures l'.consumed[i] in l'.w.states && l'.w.states[l'.consumed[i]].consumedAt.Some?
    {
      ConsumedStays(l, t, l'.consumed[i]);
    }
  }

  lemma {:induction false} RunKeeps(clock: int, run: seq<Timed>, n: nat)
    requires n <= |run| && AllFresh(clock, run, n)
    ensures ConnectionsKept(After(clock, run, n)) && StatesKept(After(clock, run, n))
              && ConsumedOnce(After(clock, run, n))
  {
    hide Next, Fresh;
    if n > 0 {
      RunKeeps(clock, run, n - 1);
      var l := After(clock, run, n - 1);
      StepKeepsConnections(l, run[n - 1]);
      StepKeepsStates(l, run[n - 1]);
      StepKeepsConsumed(l, run[n - 1]);
    }
  }

  // ---- The handshake's promises ----

  /** Each state is consumed at most once over every run. */
  lemma EachStateConsumedOnce(clock: int, run: seq<Timed>, n: nat, i: nat, j: nat)
    requires n <= |run| && AllFresh(clock, run, n)
    requires i < j < |After(clock, run, n).consumed|
    ensures After(clock, run, n).consumed[i] != After(clock, run, n).consumed[j]
  {
    hide Next, Fresh;
    RunKeeps(clock, run, n);
  }

  /** The ledger logs exactly what is consumed and minted: a stored state becomes used in a step exactly when it is what
      the step adds to the log, and the states stored anew are exactly those minted. */
  lemma LogIsExact(l: Ledger, t: Timed, s: StateId)
    ensures var l' := Next(l, t);
            var used := s in l.w.states && s in l'.w.states && l.w.states[s].consumedAt == None
                        && l'.w.states[s].consumedAt != None;
            && (used <==> l'.consumed == l.consumed + [s])
            && (l'.consumed == l.consumed || exists c :: l'.consumed == l.consumed + [c])
            && (l.w.states.Keys <= l.mints.Keys ==>
                  l'.mints.Keys == l.mints.Keys + (l'.w.states.Keys - l.w.states.Keys))
  {
    var l' := Next(l, t);
    if l'.consumed == l.consumed + [s] {
      assert t.step.CallsBack? && t.step.state == l'.consumed[|l.consumed|];
    }
  }

  predicate IsActive(w: World, c: ConnectionId) { c in w.connections && w.connections[c].status.Active? }

  predicate BecomesActive(w: World, w': World, c: ConnectionId) { !IsActive(w, c) && IsActive(w', c) }

  /** The step changes what the connection calls the provider with, or the account it stands for. */
  predicate CredentialsChange(w: World, w': World, c: ConnectionId) {
    && c in w.connections && c in w'.connections
    && (|| w.connections[c].accessToken != w'.connections[c].accessToken
        || w.connections[c].refreshToken != w'.connections[c].refreshToken
        || w.connections[c].tokenExpiresAt != w'.connections[c].tokenExpiresAt
        || w.connections[c].account != w'.connections[c].account)
  }

  /** A callback that consumes a state minted for c while its connect token was unused and unexpired: at most ten
      minutes after the state, and seventy after the token. */
  predicate ByCallback(l: Ledger, t: Timed, c: ConnectionId) {
    && t.step.CallsBack? && Consumes(l.w, t.step, t.at) && t.step.reply.Exchanged?
    && t.step.state in l.mints
    && var mint := l.mints[t.step.state];
       && mint.row.identity.id == c && mint.row.connectToken in l.issued
       && !mint.row.connectTokenUsed && mint.at <= mint.row.connectTokenExpiresAt
       && t.at <= mint.at + 10 * 60
       && t.at <= l.issued[mint.row.connectToken] + 70 * 60
  }

  /** A refresh of a connection that is ACTIVE and stays so: nothing but its tokens and their expiry changes. */
  predicate ByRefresh(l: Ledger, t: Timed, c: ConnectionId) {
    && t.step.Refreshes? && t.step.c == c && IsActive(l.w, c) && IsActive(Next(l, t).w, c)
    && var before, after := l.w.connections[c], Next(l, t).w.connections[c];
       after == before.(accessToken := after.accessToken, refreshToken := after.refreshToken,
                        tokenExpiresAt := after.tokenExpiresAt)
  }

  /** A connection becomes ACTIVE only in a callback that consumes a state minted for it while its connect token was
      unused and unexpired, so at most 70 minutes after that token was issued. */
  lemma ActivationIsBounded(clock: int, run: seq<Timed>, n: nat, c: ConnectionId)
    requires n < |run| && AllFresh(clock, run, n + 1)
    requires BecomesActive(After(clock, run, n).w, After(clock, run, n + 1).w, c)
    ensures ByCallback(After(clock, run, n), run[n], c)
  {
    hide Fresh, Next;
    RunKeeps(clock, run, n);
    var l, t := After(clock, run, n), run[n];
    assert After(clock, run, n + 1) == Next(l, t);
    OnlyCallbackActivates(l, t, c);
    CallbackIsBounded(l, t, c);
  }

  /** Credentials and account change only in such a callback, or in a refresh of a connection already ACTIVE, which
      keeps its account, connect token, identity and all else. */
  lemma CredentialsChangeOnlyBy(clock: int, run: seq<Timed>, n: nat, c: ConnectionId)
    requires n < |run| && AllFresh(clock, run, n + 1)
    requires CredentialsChange(After(clock, run, n).w, After(clock, run, n + 1).w, c)
    ensures ByCallback(After(clock, run, n), run[n], c) || ByRefresh(After(clock, run, n), run[n], c)
  {
    hide Fresh, Next;
    RunKeeps(clock, run, n);
    var l, t := After(clock, run, n), run[n];
    assert After(clock, run, n + 1) == Next(l, t);
    assert Fresh(l, t);
    OnlyTheseChangeCredentials(l, t, c);
    if t.step.CallsBack? {
      CallbackIsBounded(l, t, c);
    }
  }

  predicate CallbackFor(l: Ledger, t: Timed, c: ConnectionId) {
    && t.step.CallsBack? && t.step.reply.Exchanged? && Consumes(l.w, t.step, t.at)
    && t.step.state in l.w.states && l.w.states[t.step.state].conn == c && t.at <= l.w.states[t.step.state].expiresAt
  }

  lemma CallbackIsBounded(l: Ledger, t: Timed, c: ConnectionId)
    requires StatesKept(l) && CallbackFor(l, t, c)
    ensures ByCallback(l, t, c)
  {
    hide Consumes;
  }

  lemma OnlyCallbackActivates(l: Ledger, t: Timed, c: ConnectionId)
    requires BecomesActive(l.w, Next(l, t).w, c)
    ensures CallbackFor(l, t, c)
  {
    hide MintedBy, TokenExpiryFrom;
  }

  lemma OnlyTheseChangeCredentials(l: Ledger, t: Timed, c: ConnectionId)
    requires ConnectionsKept(l) && Fresh(l, t) && CredentialsChange(l.w, Next(l, t).w, c)
    ensures CallbackFor(l, t, c) || ByRefresh(l, t, c)
  {
    assert c in l.identities;
    hide MintedBy, TokenExpiryFrom, ConnectionsKept, Fresh, OpenConnectPage;
  }

  /** A denied or failed callback leaves every connection as it was; at most the state is spent. */
  lemma UnsuccessfulCallbackChangesNoConnection(w: World, state: StateId, reply: Reply, saves: bool, now: int)
    ensures var (w', answer) := HandleCallback(w, state, reply, saves, now);
            && (answer != Redirect(true) ==> w'.connections == w.connections)
            && (forall s :: s in w.states && s != state ==> s in w'.states && w'.states[s] == w.states[s])
            && (StateError(w, state, now).Some? ==> w' == w)
            && (StateError(w, state, now).None? ==> StateError(w', state, now) == Some(StateAlreadyUsed))
  {
    assert StateError(w, state, now).None? ==> state in w.states && state != "";
  }

  lemma {:induction false} IdentitiesStay(clock: int, run: seq<Timed>, i: nat, j: nat, c: ConnectionId)
    requires i <= j <= |run| && AllFresh(clock, run, j)
    requires c in After(clock, run, i).identities
    ensures c in After(clock, run, j).identities
              && After(clock, run, j).identities[c] == After(clock, run, i).identities[c]
    decreases j
  {
    hide WorldAfter, MintedBy, Consumes;
    if i < j {
      IdentitiesStay(clock, run, i, j - 1, c);
      assert Fresh(After(clock, run, j - 1), run[j - 1]);
    }
  }

  lemma {:induction false} FreshPrefix(clock: int, run: seq<Timed>, i: nat, j: nat)
    requires i <= j <= |run| && AllFresh(clock, run, j)
    ensures AllFresh(clock, run, i)
    decreases j
  {
    hide Next, Fresh;
    if i < j {
      FreshPrefix(clock, run, i, j - 1);
    }
  }

  /** Id, organization, user, integration and provider of a connection never change, reconnects included. */
  lemma IdentityNeverChanges(clock: int, run: seq<Timed>, i: nat, j: nat, c: ConnectionId)
    requires i <= j <= |run| && AllFresh(clock, run, j)
    requires c in After(clock, run, i).w.connections && c in After(clock, run, j).w.connections
    ensures After(clock, run, i).w.connections[c].identity == After(clock, run, j).w.connections[c].identity
    ensures After(clock, run, j).w.connections[c].identity.id == c
  {
    hide Next, Fresh;
    FreshPrefix(clock, run, i, j);
    RunKeeps(clock, run, i);
    RunKeeps(clock, run, j);
    IdentitiesStay(clock, run, i, j, c);
  }

  // ---- What a successful page or callback does ----

  /** A row that has been activated with these tokens at this time; every other field is as before. */
  predicate HoldsTokens(row: Connection, before: Connection, t: Tokens, now: int) {
    && row.status == Active && row.accessToken == t.access && row.refreshToken == t.refresh && row.account == t.account
    && row.tokenExpiresAt == Some(now + (if t.expiresIn > 0 then t.expiresIn else 3600)) && row.connectTokenUsed
    && row.identity == before.identity && row.redirectURI == before.redirectURI && row.params == before.params
    && row.connectToken == before.connectToken && row.connectTokenExpiresAt == before.connectTokenExpiresAt
    && row.reconciledAt == before.reconciledAt
  }

  /** A callback succeeds exactly with a stored, unused, unexpired state of a stored connection, an exchanged code and a
      write that lands; then that connection holds the exchanged tokens, and no other row changes. */
  lemma CallbackStores(w: World, state: StateId, reply: Reply, saves: bool, now: int)
    ensures var (w', answer) := HandleCallback(w, state, reply, saves, now);
            && (answer == Redirect(true) <==>
                  && state != "" && state in w.states && w.states[state].consumedAt.None?
                  && now <= w.states[state].expiresAt && w.states[state].conn in w.connections
                  && reply.Exchanged? && saves)
            && (answer == Redirect(true) ==>
                  var c := w.states[state].conn;
                  && w'.connections.Keys == w.connections.Keys
                  && HoldsTokens(w'.connections[c], w.connections[c], reply.tokens, now)
                  && forall d :: d in w.connections && d != c ==> w'.connections[d] == w.connections[d])
  {
  }

  /** And the connect link of that connection is then refused as completed, whenever it is opened or submitted. */
  lemma LinkIsCompleted(w: World, state: StateId, reply: Reply, saves: bool, now: int, page: Page, later: int,
                        missing: bool, encrypted: Option<string>, stored: bool)
    requires HandleCallback(w, state, reply, saves, now).1 == Redirect(true)
    ensures var w', c := HandleCallback(w, state, reply, saves, now).0, w.states[state].conn;
            && OpenConnectPage(w', Some(c), page, later) == (w', Failed(ConnectLinkAlreadyCompleted))
            && SubmitParams(w', Some(c), page, missing, encrypted, stored, later)
               == (w', Failed(ConnectLinkAlreadyCompleted))
  {
    CallbackStores(w, state, reply, saves, now);
    hide HandleCallback;
  }

  /** The connect token of a stored connection is unused and unexpired. */
  predicate LinkOpen(w: World, found: Option<ConnectionId>, now: int) {
    && found.Some? && found.value in w.connections
    && !w.connections[found.value].connectTokenUsed && now <= w.connections[found.value].connectTokenExpiresAt
  }

  /** Opening or submitting the page of an open link goes on to the provider exactly when the definition is known, the
      ports work and the params it expects are there; a link that is not open is refused and stores nothing. */
  lemma PageForwardsIff(w: World, found: Option<ConnectionId>, page: Page, missing: bool, encrypted: Option<string>,
                        saves: bool, now: int)
    ensures var viewed := OpenConnectPage(w, found, page, now);
            var submitted := SubmitParams(w, found, page, missing, encrypted, saves, now);
            && (viewed.1 == Forward(page.newState) <==>
                  && LinkOpen(w, found, now) && page.definitionKnown && page.portsWork
                  && (page.hasExpectedParams ==> w.connections[found.value].params != ""))
            && (viewed.1 == ParamsForm <==>
                  && LinkOpen(w, found, now) && page.definitionKnown
                  && page.hasExpectedParams && w.connections[found.value].params == "")
            && (submitted.1 == Forward(page.newState) <==>
                  && LinkOpen(w, found, now) && page.definitionKnown && page.portsWork
                  && !missing && encrypted.Some? && saves)
            && (submitted.1 == Forward(page.newState) ==>
                  submitted.0.connections[found.value].params == encrypted.value)
            && (viewed.1 == Forward(page.newState) ==>
                  viewed.0 == w.(states := w.states[page.newState := OAuthState(found.value, now + 600, None)]))
            && (submitted.1 == Forward(page.newState) ==>
                  submitted.0.states == w.states[page.newState := OAuthState(found.value, now + 600, None)])
            && (!LinkOpen(w, found, now) ==> viewed.0 == w && submitted.0 == w)
  {
  }

  /** A reconnect is refused exactly for a connection that never got past INITIATED; otherwise it opens a new link for
      an hour and keeps status and credentials. */
  lemma ReconnectReopens(w: World, c: ConnectionId, token: string, uri: string, now: int, later: int)
    ensures var (w', answer) := Reconnect(w, c, token, uri, now);
            && (answer == Done <==> c in w.connections && w.connections[c].status != Initiated)
            && (answer != Done ==> w' == w)
            && (answer == Done ==>
                  var row, before := w'.connections[c], w.connections[c];
                  && (LinkOpen(w', Some(c), later) <==> later <= now + 3600)
                  && row.connectToken == token && row.redirectURI == uri && row.params == ""
                  && row.status == before.status && row.accessToken == before.accessToken
                  && row.refreshToken == before.refreshToken && row.tokenExpiresAt == before.tokenExpiresAt
                  && row.account == before.account && row.identity == before.identity)
  {
  }

  /** A new connection is INITIATED, holds no credentials, and its link is open for an hour. */
  lemma InitiateOpensLink(w: World, identity: Identity, uri: string, token: string, now: int, later: int)
    ensures var w' := Initiate(w, identity, uri, token, now);
            && identity.id in w'.connections
            && var row := w'.connections[identity.id];
               && row.status == Initiated && row.accessToken == "" && row.refreshToken == ""
               && row.tokenExpiresAt == None && row.redirectURI == uri && row.params == ""
               && (LinkOpen(w', Some(identity.id), later) <==> later <= now + 3600)
  {
  }

  /** The whole transition table of the status. */
  lemma StatusMoves(w: World, step: Step, now: int, c: ConnectionId)
    requires c in w.connections && c in WorldAfter(w, step, now).connections
    ensures var was, now' := w.connections[c].status, WorldAfter(w, step, now).connections[c].status;
            now' == match step
                  case Initiates(identity, _, _) => if identity.id == c then Initiated else was
                  case CallsBack(state, reply, saves) =>
                    if HandleCallback(w, state, reply, saves, now).1 == Redirect(true) && w.states[state].conn == c
                    then Active else was
                  case Disables(d) => if d == c then Disconnected else was
                  case RefreshExpires(d) => if d == c then Expired else was
                  case _ => was
  {
    hide TokenExpiryFrom;
  }

  // ---- Every answer ----

  /** Why a page is refused. */
  lemma PageRefusals(w: World, found: Option<ConnectionId>, page: Page, missing: bool, encrypted: Option<string>,
                     saves: bool, now: int)
    ensures var viewed := OpenConnectPage(w, found, page, now).1;
            var submitted := SubmitParams(w, found, page, missing, encrypted, saves, now).1;
            var known := found.Some? && found.value in w.connections;
            && (!known ==> viewed == submitted == Failed(ConnectLinkInvalid))
            && (known && w.connections[found.value].connectTokenUsed ==>
                  viewed == submitted == Failed(ConnectLinkAlreadyCompleted))
            && (known && !w.connections[found.value].connectTokenUsed
                && now > w.connections[found.value].connectTokenExpiresAt ==>
                  viewed == submitted == Failed(ConnectLinkExpired))
            && (LinkOpen(w, found, now) && !page.definitionKnown ==> viewed == submitted == Failed(UnknownProvider))
            && (LinkOpen(w, found, now) && page.definitionKnown && missing ==>
                  submitted == Failed(MissingRequiredParams))
  {
  }

  /** Why a callback is refused, and what it answers when the provider refused or the exchange or the write failed. */
  lemma CallbackAnswers(w: World, state: StateId, reply: Reply, saves: bool, now: int)
    ensures var answer := HandleCallback(w, state, reply, saves, now).1;
            && (state == "" ==> answer == Failed(StateMissing))
            && (state != "" && state !in w.states ==> answer == Failed(StateUnknown))
            && (state != "" && state in w.states ==>
                  var s := w.states[state];
                  && (s.consumedAt != None ==> answer == Failed(StateAlreadyUsed))
                  && (s.consumedAt == None && now > s.expiresAt ==> answer == Failed(StateExpired))
                  && (s.consumedAt == None && now <= s.expiresAt && s.conn in w.connections ==>
                        answer == match reply
                                  case Refused => Redirect(false)
                                  case ExchangeFailed => Failed(TokenExchangeFailed)
                                  case Exchanged(_) => if saves then Redirect(true) else Failed(PortFailed)))
  {
  }

  /** A refresh stores the new tokens on an ACTIVE connection, keeping the refresh token if none was sent; a reconciled
      one is stamped; a deleted one is gone. No other row changes. */
  lemma UpkeepStores(w: World, c: ConnectionId, access: string, refresh: string, expiresIn: int, now: int)
    requires c in w.connections
    ensures var row, after := w.connections[c], Refresh(w, c, access, refresh, expiresIn, now).0.connections;
            after == if row.status != Active then w.connections
                     else w.connections[c := row.(
                       accessToken := access, refreshToken := if refresh == "" then row.refreshToken else refresh,
                       tokenExpiresAt := Some(now + (if expiresIn > 0 then expiresIn else 3600)))]
    ensures Reconcile(w, c, now).0.connections == w.connections[c := w.connections[c].(reconciledAt := Some(now))]
    ensures Delete(w, c).0.connections == w.connections - {c}
    ensures Delete(w, c).0.states == w.states && Reconcile(w, c, now).0.states == w.states
  {
  }
}

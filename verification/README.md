# Beecon: a Dafny model of its server logic

Beecon connects organizations to providers over OAuth, polls providers for trigger events and delivers those events to
webhooks. This project models the logic of its Go server that keeps state, and proves what that logic promises over whole
runs. Each module stands for one component; ports (database, network, clock, minters, random sources) are maps and
parameters, and a failing port is a parameter too, so most results hold wherever a write fails.

| module | component |
|---|---|
| `Watermark`, `PollRun` | the trigger poller: what a tick fires, and runs of ticks with crashes |
| `RefreshProtocol` | token refresh by racing callers under a keyed mutex, and the expiry event |
| `ConnectHandshake`, `CallbackRace` | connect links, single-use states and the OAuth callback; callbacks that race |
| `SemVer`, `RegistryPublish` | version strings and their order; publishing bundles and tool identities |
| `Activation` | boot, backfill, activation and rollback of what an installation serves |
| `LeaseClaim` | the lease claim shared by the workers, and overlapping dispatches |
| `RetrySchedule`, `Outbox`, `OutboxRuns`, `OutboxEffects` | the webhook outbox: retries, fan-out, lifecycle, auto-disable, purge |
| `SecretRotation` | rotating API-key and webhook secrets, and the view recovered from a list |
| `ConfigImport` | exporting, planning and importing an organization's configuration |
| `WorkerGroup` | starting, nudging, stopping and draining the background loops |
| `DottedBody` | JSON bodies built from dotted keys, and the lookup that reads them |
| `Common` | options, filtering, counters, 64-bit arithmetic |

How the modules are written. Code that computes by expressions is functions. Objects that update fields are classes whose
methods are proved equal to a function on the stored state; loops are loops with invariants. Concurrency (refresh,
callbacks, workers, claims) is a machine of atomic steps, where a step that is not possible changes nothing, so that every
sequence of steps is a run. Results about runs are by induction over steps. Times are integers unless the text says
otherwise.

`dafny verify dfyconfig.toml` checks everything.

## What the proofs show about the code

- A resume or enable lets some record fire a second time exactly when the reset time is not beyond the watermark
  (`ResetForgetsNothingIff`), and a given one exactly when it lies at or after that time (`ResetRefiresIff`).
- One event per expiry rests on the conditional flip. A whole-row write from outside it that carried EXPIRED over an
  ACTIVE row would be a flip without an event, and `OneEventPerExpiry` counts those apart.
- Saving an event always clears its lease, also one somebody else holds by then (`SaveKeepsProtectedIff`). The comment in
  the repository code says the save means the attempt is over; after an outlasted lease it is another holder's attempt
  that loses its protection.
- The version comparison subtracts 64-bit integers, so published versions climb step by step but can come round again, and
  only requested versions are looked up: a publish overwrites an earlier bundle exactly when it requests no version and the
  automatic one is on file (`OverwritesIff`). `AutomaticVersionOverwrites` is such a run, with neither a signed first version
  nor an overflowing bump. It cannot happen while requested versions have no negative component and no bump overflows.
- The automatic version is not always one the explicit gates accept: besides a version on file, an overflowing major or
  minor bump is refused when asked for (`AutomaticVersionPassesGateIff`, `AutomaticVersionRefused`).
- A grant rotates the refresh token at the provider before anything is stored. If encryption or the update then fails, the
  replaced token stays stored and is presented again (`UnwrittenRotationReuses`). Once written it is not, unless the provider
  issues it again or a row write from outside the mutex brings it back (`WrittenRotationRetires`).
- A rollback whose own write fails leaves store and served map different, unless what was rolled back to happens to be
  what the stored row would serve. Tool slugs do not shrink even then.
- A rotation that fails on its last write leaves a key without an active secret, which the comment on `activeSecretOf`
  says cannot happen, and hides the next rotation's overlap. An overlap above 2562047 hours wraps to a negative one.
- Endpoint URLs are not kept unique, so an organization's own export can plan changes; a failed import is not undone.
- Dotted keys of which one is a prefix of another build a body that depends on the map's iteration order.

## Model

| member | source | states |
|---|---|---|
| `Watermark.FiresAsFullHistory` | server/internal/triggers/watermark.go:34-99 | What every tick of every run fires is, oldest first, what a keep-everything history would fire: the fetched (id, timestamp) records at or after the high-water mark that no earlier tick since the last baseline or reset fetched. |
| `Watermark.RunCarriesHistory` | server/internal/triggers/watermark.go:34-123 | Over every run, baselines, pauses, resumes, disables and enables included, the watermark is the high-water mark of the full history and the seen ids are exactly those fetched at it. |
| `Watermark.NoRecordFiresTwice` | server/internal/triggers/watermark.go:34-123 | A record fires in two ticks of a run only if a resume or enable between the two goes back to its timestamp or before it. |
| `Watermark.ResetForgetsNothingIff` | server/internal/triggers/types.go:125-131 | Resuming or enabling forgets nothing that was passed exactly when the reset time is beyond the watermark, or equals it with no id seen there. |
| `Watermark.ResetRefiresIff` | server/internal/triggers/watermark.go:117-123 | After a reset, a record the state had passed fires again exactly when it lies at or after the reset time. |
| `Watermark.UnsafeResetRefires` | server/internal/triggers/watermark.go:117-123 | A concrete run in which the same record fires before and after a resume at its own timestamp, so the strictness matters. |
| `Watermark.StepMoves` | server/internal/triggers/types.go:125-131 | What each of baseline, tick, pause, resume, disable, enable and removal of the trigger does to status and pause; pausing and disabling leave watermark and seen ids alone. |
| `Watermark.FirstTickFiresNothing` | server/internal/triggers/watermark.go:34-59 | A new instance is active and due at once, and whatever its first tick fetches fires nothing. |
| `Watermark.TickPasses` | server/internal/triggers/watermark.go:34-99 | A tick fires exactly the fetched records the state had not passed, and afterwards everything fetched is passed and nothing is un-passed. |
| `Watermark.AdvancedWatermarkIs` | server/internal/triggers/watermark.go:69-99 | A tick moves the watermark to the newest fetched timestamp if that is newer, and never back. |
| `Watermark.AdvancedSeenIs` | server/internal/triggers/watermark.go:69-99 | The ids kept afterwards are those fetched at the new watermark, plus the old ones exactly if the watermark did not move. |
| `Watermark.BaselineCarries` | server/internal/triggers/watermark.go:48-59 | A first poll starts from the newest record fetched and the ids fetched at it, or from now when there is none. |
| `Watermark.SortedIsOrderedPermutation` | server/internal/triggers/watermark.go:128-138 | The sort gives timestamp order with ids breaking ties, and loses and invents nothing. |
| `Watermark.IdOrderIs` | server/internal/triggers/watermark.go:128-138 | Ids compare as texts do: a prefix first, otherwise by the first differing character. |
| `Watermark.LatestTimestamp` | server/internal/triggers/watermark.go:142-153 | The loop answers the greatest timestamp, and says so when there is none. |
| `Watermark.LatestIsGreatest` | server/internal/triggers/watermark.go:142-153 | No record is newer than the latest timestamp, and one has it. |
| `Watermark.SelectFiring` | server/internal/triggers/watermark.go:73-78 | The selection loop keeps exactly the firing records, in order. |
| `Watermark.SeenAt` | server/internal/triggers/watermark.go:85-93 | The boundary loop adds to the kept ids exactly the fired ids at the given time. |
| `Watermark.AdvancePollLoop` | server/internal/triggers/watermark.go:69-99 | The whole advancing tick, loops and branches, computes the decision the history lemmas speak about. |
| `PollRun.Poller.EmitFiredEvents` | server/internal/triggers/poll.go:129-144 | Events are enqueued oldest first, and a failure leaves exactly the prefix before it enqueued. |
| `PollRun.Poller.PollActiveTick` | server/internal/triggers/poll.go:101-123 | Row and outbox after an active tick, whether the fetch, an enqueue or the closing save fails. |
| `PollRun.Poller.Poll` | server/internal/triggers/poll.go:78-92 | Row and outbox after one tick, for every answer of the connection lookup: a failed one reschedules, an inactive one pauses, an active one polls or, if paused, resumes. |
| `PollRun.AwaySkipsTheGap` | server/internal/triggers/poll.go:78-92 | Over every run, from a saved tick that finds the connection inactive up to and including the next that finds it active and saves, nothing is enqueued; that one leaves the watermark at its own time with no seen ids and no pause. |
| `PollRun.GapIsNeverDelivered` | server/internal/triggers/poll.go:78-92 | So a record dated before the tick that finds the connection back gets no event afterwards, unless a later reset goes back to it. |
| `PollRun.GoingAwayKeepsWatermark` | server/internal/triggers/poll.go:85-87 | The tick that finds it inactive stores the time of the pause and keeps what was polled so far. |
| `PollRun.NoLossUnderCrashes` | server/internal/triggers/poll.go:94-144 | With a crash or error allowed at any point of any tick and resets at any time, the saved state never passes an eligible record without an event for it, provided only that the provider keeps returning what is eligible at or after the watermark. A reset makes eligible only what lies after it. |
| `PollRun.RepeatsAreBounded` | server/internal/triggers/poll.go:94-144 | In every such run a record is enqueued at most once, plus once per failed tick that fetched it and once per reset that went back over it, provided only that no batch holds it twice. |
| `PollRun.CompletedTickCatchesUp` | server/internal/triggers/poll.go:101-123 | One tick that completes is enough: every eligible record has its event. |
| `PollRun.TickEnqueues` | server/internal/triggers/poll.go:101-144 | In every run a tick that fetches enqueues what the decision fires, oldest first, as far as enqueues go; the row moves only if all were enqueued and the save lands. |
| `PollRun.FailedTickOnlyReschedules` | server/internal/triggers/poll.go:78-162 | A tick whose lookup or fetch failed changes nothing but the time of the next poll. |
| `PollRun.SavedTickReschedules` | server/internal/triggers/poll.go:197-202 | Every tick that gets to its save schedules the next poll one interval later. |
| `PollRun.PassedGetsNothingMore` | server/internal/triggers/poll.go:94-144 | Once the saved state has passed a record, no event for it is added until a reset goes back to it. |
| `PollRun.EligibleIs` | server/internal/triggers/watermark.go:69-123 | A record becomes eligible exactly on appearing beyond the stored watermark, or at it with an id not seen there, and stops being so exactly in a reset to a later time. |
| `PollRun.TickIsCounted` | server/internal/triggers/poll.go:78-123 | A tick counts as failed exactly when it fetched and an enqueue or the save was missing, and as a reset exactly when it found the connection active after a pause and saved. |
| `PollRun.SwitchesStore` | server/internal/triggers/types.go:125-131 | Disabling and enabling act on the stored row and enqueue nothing; an enabled instance starts over at that time. |
| `PollRun.TickLosesNothing` | server/internal/triggers/poll.go:101-144 | A tick, completed or cut short, passes an eligible record only together with its event. |
| `PollRun.TickRepeatsBounded` | server/internal/triggers/poll.go:101-144 | A tick repeats an event only against a failed tick that fetched the record or a reset that went back over it. |
| `PollRun.EmittedAtMostFetched` | server/internal/triggers/poll.go:129-144 | A tick emits a record no more often than the provider returned it. |
| `RefreshProtocol.AtMostOneGrantInFlight` | server/internal/connections/refreshlock.go:53-72 | In every interleaving of any number of callers, at most one grant is in flight per connection in a process. |
| `RefreshProtocol.GateIff` | server/internal/connections/refreshlock.go:68-82 | A caller that has read the row starts a grant exactly when it is forced, or no expiry is stored, or its lead is zero or less and the expiry has passed, or its lead is positive and the expiry is no later than now plus it. |
| `RefreshProtocol.StaleRowIsRefreshed` | server/internal/connections/refreshlock.go:53-72 | In any run, a caller that finds the lock free and the row ACTIVE acquires, reads and starts exactly one grant, of that row, under that condition, and none otherwise. |
| `RefreshProtocol.SingleFlight` | server/internal/connections/refreshlock.go:36-81 | After a grant stores a token whose expiry lies beyond a time plus lead, among callers that ask with at most that lead nobody but a forced one gets past the gate up to that time, in any interleaving: forced callers (connections/execution_access.go:74, connections/reconcile.go:81) may wait and begin throughout, as long as what they store stays fresh as well; given one process and no row writes from outside the mutex. |
| `RefreshProtocol.UnforcedReuse` | server/internal/connections/refreshlock.go:36-81 | If no forced caller waits or begins in that window either, no grant starts at all and the stored row stays as it was written. |
| `RefreshProtocol.GrantPresentsStoredToken` | server/internal/connections/refresh.go:56-101 | Under the same condition a grant always presents the refresh token stored at that moment. |
| `RefreshProtocol.RefreshStores` | server/internal/connections/refresh.go:85-125 | From a granted refresh to its write, in any interleaving: the row then holds the new access token, the new refresh token or the old one if none was sent, and the expiry granted, an hour if none was; no other row changes. |
| `RefreshProtocol.WrittenRotationRetires` | server/internal/connections/refresh.go:56-125 | Once a grant that rotated its refresh token has been written, no later grant on that connection presents the old token again, in any interleaving, unless the provider issues it again; under the same condition (section 6 of RFC 6749). |
| `RefreshProtocol.UnwrittenRotationReuses` | server/internal/connections/refresh.go:85-125 | If that write does not happen, because encryption or the store fails after the grant, the next caller that is due presents the token the provider has already replaced. |
| `RefreshProtocol.RefreshLocks.LockFor` | server/internal/connections/refreshlock.go:25-34 | One mutex per connection, created on first use, never replaced, never shared by two connections. |
| `RefreshProtocol.OneEventPerExpiry` | server/internal/connections/expired_event.go:28-54 | In every interleaving across processes there are never more connection.expired events than ACTIVE-to-EXPIRED flips, and equally many exactly when nobody is still emitting, no emission failed and no stale whole-row write made a flip. |
| `RefreshProtocol.DenialExpires` | server/internal/connections/expired_event.go:28-54 | A denied grant flips an ACTIVE row to EXPIRED and emits one event; if it is no longer ACTIVE nothing is flipped or emitted. |
| `RefreshProtocol.FailureFreesLock` | server/internal/connections/refreshlock.go:53-72 | Whatever fails between acquiring and releasing, nothing is written and the lock is freed. |
| `RefreshProtocol.AroundTheLock` | server/internal/connections/facade.go:296-309 | Callers begin by waiting, time only goes on, writes from outside land as they are, and a write to a row that is gone brings nothing back. |
| `RefreshProtocol.FlipsOnlyAfterDenial` | server/internal/connections/refresh.go:106-112 | Only a caller whose grant the provider denied flips the status; a transient failure never does, and every flip is counted once. |
| `ConnectHandshake.EachStateConsumedOnce` | server/internal/connections/oauth.go:248-277 | Over every run each state is consumed at most once (section 10.12 of RFC 6749). |
| `ConnectHandshake.LogIsExact` | server/internal/connections/oauth.go:171-277 | A stored state becomes used in a step exactly when it is what the step adds to the consumption log, and the states stored anew are exactly those minted. |
| `ConnectHandshake.ActivationIsBounded` | server/internal/connections/oauth.go:220-329 | A connection becomes ACTIVE only in a callback that consumes a state minted for it while its connect token was unused and unexpired: at most 10 minutes after the state and 70 minutes after the token. |
| `ConnectHandshake.CredentialsChangeOnlyBy` | server/internal/connections/types.go:105-161 | Tokens, their expiry and the account change only in such a callback, or in a refresh of a connection already ACTIVE, which keeps account, connect token, identity and everything else. |
| `ConnectHandshake.UnsuccessfulCallbackChangesNoConnection` | server/internal/connections/oauth.go:220-329 | A denied or failed callback changes no connection; it spends at most its own state, which is then refused as used. |
| `ConnectHandshake.CallbackStores` | server/internal/connections/oauth.go:220-329 | A callback succeeds exactly with a stored, unused, unexpired state of a stored connection, an exchanged code and a write that lands; then that connection is ACTIVE, its link used, and holds the exchanged access token as access token, refresh token as refresh token, account and expiry, and nothing else in any row changes. |
| `ConnectHandshake.CallbackAnswers` | server/internal/connections/oauth.go:220-277 | Which refusal or failure a callback answers, for every state and reply. |
| `ConnectHandshake.LinkIsCompleted` | server/internal/connections/oauth.go:82-97 | After a successful callback its connect link is refused as already completed, opened or submitted, at any time. |
| `ConnectHandshake.PageForwardsIff` | server/internal/connections/oauth.go:82-195 | A page goes on to the provider exactly when its link is open, the definition known, the ports work and the expected params are there, and mints a state for ten minutes; a link that is not open stores nothing. |
| `ConnectHandshake.PageRefusals` | server/internal/connections/oauth.go:82-97 | Which refusal a page answers: unknown, already completed, expired, unknown provider, missing params. |
| `ConnectHandshake.StatusMoves` | server/internal/connections/types.go:74-196 | The whole table of what changes the status of a connection, and to what. |
| `ConnectHandshake.InitiateOpensLink` | server/internal/connections/types.go:74-96 | A new connection is INITIATED, holds no credentials, and its link is open for an hour. |
| `ConnectHandshake.ReconnectReopens` | server/internal/connections/types.go:175-196 | A reconnect is refused exactly for a connection still INITIATED; otherwise it opens a new link for an hour and keeps status and credentials. |
| `ConnectHandshake.UpkeepStores` | server/internal/connections/types.go:155-169 | A refresh stores the new tokens on an ACTIVE connection only, a reconciliation stamps it, a deletion removes it; nothing else changes. |
| `ConnectHandshake.IdentityNeverChanges` | server/internal/connections/types.go:74-196 | Id, organization, user, integration and provider of a connection never change, through initiation, params, activation, refresh, reconciliation, expiry, disabling and reconnects. |
| `ConnectHandshake.StateComesFrom` | server/internal/connections/oauth.go:171-195 | Every stored state is either kept with its binding and expiry or minted by this step from an unused, unexpired connect token. |
| `ConnectHandshake.ConnectionComesFrom` | server/internal/connections/types.go:74-196 | Every transition keeps the identity, and the connect token with its expiry unless the step issues a new one. |
| `ConnectHandshake.ConsumedStays` | server/internal/connections/oauth.go:248-277 | A consumed state is never forgotten or revived by any later step. |
| `ConnectHandshake.ConnectFlow.Forwarding` | server/internal/connections/oauth.go:171-195 | A forwarding page mints one state for ten minutes, or nothing when a port fails. |
| `ConnectHandshake.ConnectFlow.Open` | server/internal/connections/oauth.go:82-117 | Opening a link: each refusal, the params form, or a minted state, and nothing else written. |
| `ConnectHandshake.ConnectFlow.Submit` | server/internal/connections/oauth.go:125-146 | Submitting params is refused, or fails in encryption or in the update, and stores nothing; or stores them, and then mints a state or, when a later port fails, none. |
| `ConnectHandshake.ConnectFlow.ConsumeState` | server/internal/connections/oauth.go:248-277 | A missing, unknown, used or expired state is refused unchanged; a valid one is spent before anything else happens. |
| `ConnectHandshake.ConnectFlow.Callback` | server/internal/connections/oauth.go:220-329 | Stores and answer after a callback, for every kind of state and every reply of the provider. |
| `CallbackRace.OneCallbackPerState` | server/internal/connections/driven/bun/repository.go:339-358 | Over a whole run, however callbacks interleave step by step, with each other and with every other operation, only one of those presenting a state ever gets past the conditional mark, and so exchanges a code: not even one that comes after the first has failed. |
| `CallbackRace.OnlyWinnersActivate` | server/internal/connections/oauth.go:220-329 | In every step of every such run a connection becomes ACTIVE only by the write of the caller that won a consumed state minted for it, or by a whole callback elsewhere under the bounds of the handshake. |
| `CallbackRace.WrittenRowIsTheStatesOwn` | server/internal/connections/oauth.go:220-329 | The row such a callback writes is ACTIVE, belongs to the connection its consumed state was minted for, and has that connection's unchanged identity, whatever happened to the stored row since it was read. |
| `CallbackRace.WinnerStoresTokens` | server/internal/connections/oauth.go:288-329 | From a caller's exchange to its write, in any interleaving: its connection, if it still exists, then holds the exchanged tokens the right way round over the row as it was read, no other row changes, and its link is refused as completed. |
| `CallbackRace.LoneCallbackSucceeds` | server/internal/connections/oauth.go:220-329 | A callback nobody gets in the way of, with a valid state, an exchanged code and a write that lands, succeeds and stores the tokens. |
| `CallbackRace.FailureStoresNothing` | server/internal/connections/oauth.go:220-329 | A failing port ends a callback with nothing more stored, a bad state ends it at its first look, and a connection deleted meanwhile is not written again. |
| `CallbackRace.CallersArrive` | server/internal/connections/oauth.go:220-243 | A callback arrives with its state, having done nothing yet. |
| `CallbackRace.RunKeeps` | server/internal/connections/oauth.go:220-329 | The invariants of the handshake hold in every reachable state of racing callbacks, and whoever is past the mark is the one whose update made it. |
| `SemVer.ParseUndoesToString` | server/internal/registryservice/semver.go:19-41 | Parsing undoes printing for every version the integers can hold, negative ones included. |
| `SemVer.ParseAcceptsSign` | server/internal/registryservice/semver.go:19-37 | The parser is looser than section 2 of Semantic Versioning 2.0.0: a leading plus sign names the same version. |
| `SemVer.ParsedIs` | server/internal/registryservice/semver.go:19-37 | What parses is three numbers joined by dots, and those are its components. |
| `SemVer.AtoiReads` | server/internal/registryservice/semver.go:19-37 | Digits with or without a sign are read as their value exactly if it fits 64 bits. |
| `SemVer.AtoiReadsOnly` | server/internal/registryservice/semver.go:19-37 | Nothing but at least one digit, with or without a sign, is read as a number. |
| `SemVer.CompareIsPrecedenceIff` | server/internal/registryservice/semver.go:45-64 | The comparison is the precedence of section 11 of Semantic Versioning 2.0.0 exactly when the deciding difference fits 64 bits. |
| `SemVer.ComparePlain` | server/internal/registryservice/semver.go:45-64 | For components that are not negative the comparison always is that precedence, and equal means equal. |
| `SemVer.CompareCanOverflow` | server/internal/registryservice/semver.go:45-64 | Two versions that the code orders the wrong way round. |
| `SemVer.WrapKeepsSignIff` | server/internal/registryservice/semver.go:45-64 | A wrapped difference keeps its sign exactly when it did not overflow. |
| `RegistryPublish.EachVersionComparesHigher` | server/internal/registryservice/facade.go:157-211 | Whatever is submitted, each published version compares higher than the one published just before it. |
| `RegistryPublish.VersionsIncreaseIff` | server/internal/registryservice/facade.go:47-89 | Over every run the published versions increase by the precedence of section 11 of Semantic Versioning 2.0.0 exactly when no deciding difference between two consecutive ones overflows. |
| `RegistryPublish.PublishedVersionsIncrease` | server/internal/registryservice/facade.go:47-89 | So if requested versions have plain components and no bump overflows, all published versions are plain and strictly increasing, and each is still stored as published: no save overwrote one, although the automatic path looks for no conflict. |
| `RegistryPublish.OverwritesIff` | server/internal/registryservice/facade.go:157-211 | In every reachable store a successful publish takes the place of a stored bundle exactly when it requests no version and the automatic one is on file already; every other stored bundle stays. |
| `RegistryPublish.VersionsDistinctIff` | server/internal/registryservice/facade.go:157-211 | Over every run no two bundles were published under one version exactly when no publish was assigned an automatic version already on file. |
| `RegistryPublish.DistinctAreStored` | server/internal/registryservice/facade.go:47-89 | And then the store still holds every bundle ever published, under its own version. |
| `RegistryPublish.AutomaticVersionOverwrites` | server/internal/registryservice/facade.go:157-169 | A run from an empty store that reaches it, with an unsigned first version and a last bump that fits: 0.0.1, 0.0.MAX, 0.0.MIN, 0.0.-1, 0.0.0, then automatic, which is 0.0.1 again and replaces the first bundle. |
| `RegistryPublish.AutomaticVersionPassesGateIff` | server/internal/registryservice/facade.go:157-211 | Over every run, asking explicitly for the version the registry would assign by itself is accepted, with the same result, exactly when that version is not on file and the bump the gates look at does not overflow: the major one if something is removed, the minor one if something is only added. |
| `RegistryPublish.AutomaticVersionRefused` | server/internal/registryservice/facade.go:157-211 | From an empty store: MAX.0.0 with a tool, then a publish that removes it. The automatic version is MIN.0.0 and would be published, but asking for it is refused as an illegal bump. |
| `RegistryPublish.AutoNextIncreasesIff` | server/internal/registryservice/semver.go:71-80 | The automatic version is higher exactly when its bump does not overflow. |
| `RegistryPublish.AutoNextComparesHigher` | server/internal/registryservice/semver.go:71-80 | Even an overflowing bump compares higher, because the comparison wraps the other way. |
| `RegistryPublish.AssignedIsHigher` | server/internal/registryservice/facade.go:157-211 | Under the same condition every accepted version, automatic or requested, parses, has plain components and lies strictly above the latest. |
| `RegistryPublish.BumpIsAsked` | server/internal/registryservice/facade.go:157-211 | Losing a tool or a trigger asks for a major bump, gaining one for a minor bump, anything else for a patch: the automatic version is that bump, and a requested one is accepted exactly when it is not on file, parses, compares higher and bumps at least so. |
| `RegistryPublish.FirstVersionIs` | server/internal/registryservice/facade.go:173-183 | A first publish gets 1.0.0, or any requested version that parses. |
| `RegistryPublish.PublishSucceedsIff` | server/internal/registryservice/facade.go:47-89 | A publish succeeds exactly for format 1, valid samples, a version that can be assigned and a save that lands; its tools keep order, slugs and content, and a failed one changes nothing. |
| `RegistryPublish.PublishRefusals` | server/internal/registryservice/facade.go:47-89 | Which refusal a publish answers. |
| `RegistryPublish.OneSlugPerId` | server/internal/registryservice/facade.go:216-227 | No tool id ever names two slugs, within a version or across versions, whatever the versions are; slugs distinct within a bundle and minted ids fresh. |
| `RegistryPublish.OneIdPerStretch` | server/internal/registryservice/facade.go:127-150 | A slug keeps one id over every unbroken stretch of versions that contain it. |
| `RegistryPublish.ReaddedSlugGetsNewId` | server/internal/registryservice/facade.go:127-150 | A slug that was removed and is added again gets an id no earlier version used, since only the latest bundle is consulted. |
| `RegistryPublish.IdsBySlugFinds` | server/internal/registryservice/facade.go:141-150 | The prior-id map knows exactly the slugs of the latest bundle, each with an id it really had. |
| `RegistryPublish.DiffSlugs` | server/internal/registryservice/bundlediff.go:72-88 | The diff lists exactly the slugs only in the new bundle and exactly those only in the old one, each once. |
| `RegistryPublish.Registry.PriorToolIDs` | server/internal/registryservice/facade.go:141-150 | The loop builds the slug-to-id map in which a later tool wins. |
| `RegistryPublish.Registry.Mint` | server/internal/registryservice/facade.go:216-227 | The loop gives every tool its prior id if its slug has one and a fresh id otherwise, in order. |
| `RegistryPublish.Registry.PublishBundle` | server/internal/registryservice/facade.go:47-89 | Shelf and answer after a publish for every gate, and other providers untouched. |
| `Activation.StoreAndServedAgree` | server/internal/catalog/registry_sync.go:47-84 | After any sequence of boots, backfills and activations, failed ones included, rebuilding from the seed plus the stored rows gives exactly what is served, if no rollback write failed. |
| `Activation.ActivateKeepsAgreement` | server/internal/catalog/registry_sync.go:205-224 | If a rollback write fails, store and served map still agree exactly when what was rolled back to is what the stored row would serve. |
| `Activation.FailedActivateRestores` | server/internal/catalog/registry_sync.go:205-224 | A failed activation leaves the served map as it was, and the rows too if its rollback can write; pauses already made stay. |
| `Activation.FailedActivateKeepsPauses` | server/internal/catalog/registry_sync.go:205-243 | An activation that fails on a pause has paused exactly as many removed triggers, in turn, as pauses succeeded, and keeps them paused. |
| `Activation.ActivateSucceedsIff` | server/internal/catalog/registry_sync.go:47-180 | An activation succeeds exactly when a bundle of format 1 with a matching hash and slugs and schemas everywhere is pulled, the row is written, and every removed trigger can be paused; one refused before the write changes nothing. |
| `Activation.ToolSlugsNeverShrink` | server/internal/catalog/registry_sync.go:294-324 | Once served, a provider stays served and its tool slugs only grow, through every boot, backfill and activation, even when a rollback fails to write. |
| `Activation.SlugStaysResolvable` | server/internal/catalog/facade.go:428-445 | A caller who addresses a tool by slug never loses it. |
| `Activation.ResolvableIff` | server/internal/catalog/facade.go:428-445 | An identifier that begins with tool_ addresses tools by id, any other by slug. |
| `Activation.CarryOverKeepsTools` | server/internal/catalog/registry_sync.go:294-324 | The merged bundle serves the pulled tools first and unchanged, and every removed tool with its id and mapping, as deprecated. |
| `Activation.CarriedOverOnlyRemoved` | server/internal/catalog/registry_sync.go:294-324 | Every tool the merge adds was served before, is no longer declared, and is deprecated. |
| `Activation.ActivatePausesRemoved` | server/internal/catalog/registry_sync.go:233-278 | A successful activation pauses exactly the triggers that were served before and are not any more. |
| `Activation.StoredDefinitionServesBack` | server/internal/catalog/registry_sync.go:342-459 | Storing a definition as a bundle and serving it back changes nothing. |
| `Activation.BackfillKeepsAgreement` | server/internal/catalog/embedded_seed_backfill.go:42-89 | A backfill, complete or cut short, keeps agreement and neither adds nor drops a tool slug. |
| `Activation.StampKeepsSlugs` | server/internal/catalog/embedded_seed_backfill.go:97-109 | Stamping ids keeps slugs and existing ids, and what is stored serves back what is served. |
| `Activation.StampMints` | server/internal/catalog/embedded_seed_backfill.go:97-109 | A tool without an id gets the one drawn for it, and nothing else about any tool changes. |
| `Activation.BackfillStores` | server/internal/catalog/embedded_seed_backfill.go:42-89 | Every served provider a backfill reaches that had no row has one afterwards: version 1.0.0, format 1, and the stamped definition that is also served. |
| `Activation.CutShortLeavesRest` | server/internal/catalog/embedded_seed_backfill.go:42-89 | A backfill cut short leaves every provider it did not come to as it was. |
| `Activation.MissingIDsIs` | server/internal/catalog/embedded_seed_backfill.go:97-109 | The number a backfill reports is how many tools had no id. |
| `Activation.RestartServes` | server/internal/catalog/registry_sync.go:487-503 | What a restart serves agrees with the store and covers every slug. |
| `Activation.CatalogFacade.ValidateBundleShape` | server/internal/catalog/registry_sync.go:154-180 | The shape check accepts exactly the bundles whose tools and triggers all carry slugs and schemas. |
| `Activation.CatalogFacade.CarryOver` | server/internal/catalog/registry_sync.go:294-324 | The carry-over loop computes the merge the lemmas speak about. |
| `Activation.CatalogFacade.DiffTriggers` | server/internal/catalog/registry_sync.go:255-278 | The diff loop lists the previous trigger slugs the bundle no longer declares. |
| `Activation.CatalogFacade.PauseInstances` | server/internal/catalog/registry_sync.go:233-243 | Removed triggers are paused in turn up to the first failure. |
| `Activation.CatalogFacade.RollBack` | server/internal/catalog/registry_sync.go:205-224 | A rollback restores or removes the definition, and the row when it can write. |
| `Activation.CatalogFacade.ActivateBundle` | server/internal/catalog/registry_sync.go:47-84 | Rows, served map, pauses and verdict of an activation for every refusal and failure. |
| `Activation.CatalogFacade.LoadActivatedDefinitions` | server/internal/catalog/registry_sync.go:487-503 | Loading the rows in any order gives the seed overlaid with every row. |
| `Activation.CatalogFacade.StampToolIDs` | server/internal/catalog/embedded_seed_backfill.go:97-109 | The loop mints ids for exactly the tools without one and counts them. |
| `Activation.CatalogFacade.FindTool` | server/internal/catalog/facade.go:428-445 | A tool is found, in any iteration order, exactly when some served tool matches the slug, or the id when the identifier has the reserved prefix. |
| `Activation.CatalogFacade.BackfillEmbeddedSeed` | server/internal/catalog/embedded_seed_backfill.go:42-89 | The backfill loop writes each provider without a row as it then serves it. |
| `LeaseClaim.LeaseTable.ClaimDue` | server/internal/db/claim.go:46-73 | One claim takes only free due rows, each once, up to the limit; what it leaves free is no older than anything it took; and it leases exactly those. |
| `LeaseClaim.ClaimStartsDue` | server/internal/db/claim.go:46-73 | Every dispatch begins with a claim of a row that was due and free then, leased from now for the time to live; no other row changes. |
| `LeaseClaim.RowActionsDo` | server/internal/delivery/driven/bun/repository.go:170-186 | What purging, abandoning, enqueueing and redelivering do to the rows. |
| `LeaseClaim.LeaseWindowsDisjoint` | server/internal/db/claim.go:21-73 | While the lease of an event is written only by claims, no two claims of it have overlapping lease windows, for any number of workers in any order. |
| `LeaseClaim.OverlapNeedsOutlasting` | server/internal/delivery/facade.go:722-735 | Of two dispatches of one event, the earlier had ended or outlasted its lease when the later began, in every run in which saves of that event come within their own lease or beside no live dispatch of it, and its redeliveries hit none; whatever happens to other events. |
| `LeaseClaim.SaveKeepsProtectedIff` | server/internal/delivery/driven/bun/repository.go:170-186 | Saving an event clears its lease whoever holds it: live dispatches stay protected exactly when no other dispatch of that event is live, which a save within its own lease guarantees. |
| `LeaseClaim.RedeliverKeepsProtectedIff` | server/internal/delivery/facade.go:698-714 | The same for a redelivery: exactly when no dispatch of the event is live. |
| `LeaseClaim.LateSaveOverlapsOthers` | server/internal/delivery/driven/bun/repository.go:359-382 | A run in which a late save frees the next holder's lease, so that two dispatches overlap although neither outlasted its own lease. |
| `LeaseClaim.RedeliveryOverlapsLive` | server/internal/delivery/facade.go:698-714 | In a queue with one event, a redelivery while a dispatch is live lets a second start beside it. |
| `RetrySchedule.IndexIsValid` | server/internal/delivery/schedule.go:52-61 | The table index is always valid, and after the n-th failed attempt it names the n-th delay. |
| `RetrySchedule.DelaysAre` | server/internal/delivery/schedule.go:16-26 | The delays in seconds: five, then five minutes, half an hour, two, five, ten, fourteen and twenty hours, and a day. |
| `RetrySchedule.NextAttemptIsNear` | server/internal/delivery/schedule.go:45-50 | The next attempt is strictly later and within a tenth of its table delay, whatever the jitter. |
| `RetrySchedule.NextAttemptIs` | server/internal/delivery/schedule.go:45-50 | The jitter spreads the wait from nine tenths of the table delay towards eleven tenths, cut to whole nanoseconds towards the delay itself. |
| `RetrySchedule.WholeScheduleWaits` | server/internal/delivery/schedule.go:16-26 | The nine delays make 272105 seconds, of which jitter leaves at least nine tenths. |
| `OutboxRuns.FailedTookTheWholeSchedule` | server/internal/delivery/facade.go:835-852 | An event that reaches FAILED without a redelivery was attempted exactly ten times, at least nine tenths of 272105 seconds apart from first to last. |
| `OutboxRuns.EventsAreImmutable` | server/internal/delivery/facade.go:402-446 | An event's id, organization, target, type and body never change, and a purged event's id is never used again. |
| `OutboxRuns.AttemptsAreCounted` | server/internal/delivery/facade.go:757-787 | Attempts is the number of attempts made, less those whose result the store failed to record, and at most ten plus the redeliveries. |
| `OutboxRuns.TerminalStays` | server/internal/delivery/facade.go:698-714 | A terminal status is left only by a redelivery: without one the event stays exactly as it is until purged. |
| `OutboxRuns.PendingIsNeverPurged` | server/internal/delivery/facade.go:153-176 | No step removes a pending event, however old. |
| `OutboxRuns.PurgedIff` | server/internal/delivery/facade.go:153-176 | A purge removes an event exactly when it is terminal and older than its organization's window, where a window of zero or less keeps everything. |
| `OutboxRuns.ActIsStep` | server/internal/delivery/facade.go:361-446 | Every operation, seen from one event, is a legal step of that event's lifecycle. |
| `OutboxRuns.ChangeKeepsCounted` | server/internal/delivery/facade.go:835-852 | Every lifecycle step keeps the attempt counter exact and bounded. |
| `OutboxRuns.ChangeKeepsSchedule` | server/internal/delivery/facade.go:835-852 | Every lifecycle step keeps the next attempt as far from the first as the schedule asks. |
| `OutboxEffects.DeliveredIffAnswered` | server/internal/delivery/facade.go:835-856 | In every reachable state an event is DELIVERED exactly when the last recorded attempt at it, with no redelivery since, was answered with a status from 200 to 299. |
| `OutboxEffects.AttemptDecides` | server/internal/delivery/facade.go:757-856 | A recorded attempt leaves the event DELIVERED exactly for an answer from 200 to 299, FAILED exactly for any other when nine or more attempts went before, and otherwise PENDING and due later; the endpoint's counter is reset, raised or left accordingly, and it is disabled exactly when a raised counter reaches the threshold. |
| `OutboxEffects.UnrecordedAttemptChangesNothing` | server/internal/delivery/facade.go:757-787 | An attempt whose event write fails leaves the event as it was; one whose endpoint write fails leaves the endpoint as it was. |
| `OutboxEffects.BatchGoesOn` | server/internal/delivery/facade.go:722-735 | A batch goes on in order past each attempt whose two writes succeed or that has nothing to send; after any other it ends and the rest stays as it was. |
| `OutboxEffects.NotSent` | server/internal/delivery/facade.go:740-770 | Nothing is sent for an event that is not due, or whose endpoint is gone or of another organization. |
| `OutboxEffects.PlaceholderGoesToOldest` | server/internal/delivery/facade.go:738-748 | An event stored without an endpoint goes to the organization's oldest one, and nowhere exactly if there is none. |
| `OutboxEffects.RedeliveryMakesDue` | server/internal/delivery/facade.go:698-714 | A redelivery of an organization's own event, whatever its status, makes it due at once and keeps its history; any other changes nothing. |
| `OutboxEffects.ReachedIff` | server/internal/delivery/facade.go:361-446 | An enqueue that succeeds addresses a new pending event to an endpoint exactly when that is the organization's own, enabled, and admits the type. |
| `OutboxEffects.SwitchDecidesReach` | server/internal/delivery/facade.go:562-634 | Enabling makes an endpoint admit what its filter admits, with a clean counter; disabling or deleting makes it admit nothing; an update makes it admit by the new filter, if it was enabled. |
| `OutboxEffects.OnlyOwnEndpoints` | server/internal/delivery/facade.go:562-634 | Enabling, disabling, updating or deleting an endpoint that is gone or of another organization changes nothing. |
| `OutboxEffects.CreatedIff` | server/internal/delivery/facade.go:507-533 | An endpoint is created exactly for an absolute URL, a valid filter and an organization below the cap, enabled and with a clean counter; otherwise nothing changes. |
| `OutboxEffects.TestIsSent` | server/internal/delivery/facade.go:337-346 | A requested test is one new pending event for the organization's oldest endpoint, whatever its filter or status. |
| `OutboxEffects.AliasSets` | server/internal/delivery/facade.go:218-243 | The alias changes the oldest endpoint's URL and nothing else, or creates a first endpoint for every event type, whatever the cap. |
| `OutboxRuns.EnqueueFansOut` | server/internal/delivery/facade.go:361-446 | An enqueue stores one pending event per selected endpoint, or one NO_ENDPOINT placeholder if there is none, and changes nothing else; a failing one stores a prefix. |
| `OutboxRuns.MatchingAre` | server/internal/delivery/facade.go:389-397 | Fan-out selects exactly the organization's enabled endpoints whose filter admits the type. |
| `OutboxRuns.MatchingOldestFirst` | server/internal/delivery/facade.go:389-397 | It selects each once, oldest first. |
| `OutboxRuns.CounterIsFailuresSince` | server/internal/delivery/facade.go:798-815 | An endpoint's counter is the number of attempts that ended in FAILED there since its last delivery, enabling or creation, and an enabled endpoint is below the threshold, for a threshold of at least one. |
| `OutboxRuns.DisabledGetsNothingNew` | server/internal/delivery/facade.go:602-634 | An endpoint that is not enabled, such as an auto-disabled one, is addressed by no new event until it is enabled, except by a test requested for it. |
| `OutboxRuns.EndpointsWithinCap` | server/internal/delivery/facade.go:507-533 | No organization has more endpoints than the cap, or one when the cap is zero, since the compatibility alias does not look at it. |
| `Outbox.DeliveryFacade.MatchingEnabledEndpoints` | server/internal/delivery/facade.go:389-397 | The loop keeps the enabled, matching endpoints in order. |
| `Outbox.DeliveryFacade.EnqueueEvent` | server/internal/delivery/facade.go:361-446 | Store, ids and verdict after an enqueue, whichever event write fails. |
| `Outbox.DeliveryFacade.SendTestEvent` | server/internal/delivery/facade.go:337-346 | A test goes to the first endpoint whatever its filter or status, and is refused without one. |
| `Outbox.DeliveryFacade.RedeliverEvent` | server/internal/delivery/facade.go:698-714 | A redelivery makes the event pending and due now and keeps everything else. |
| `Outbox.DeliveryFacade.ApplyAutoDisable` | server/internal/delivery/facade.go:798-815 | A delivery resets the counter, a final failure raises it and disables at the threshold, anything else leaves the endpoint alone. |
| `Outbox.DeliveryFacade.DispatchOne` | server/internal/delivery/facade.go:757-787 | One attempt: target, outcome, and how far its writes got. |
| `Outbox.DeliveryFacade.DispatchOnce` | server/internal/delivery/facade.go:722-735 | A claimed batch is attempted in order, each event once, up to the first failed write. |
| `Outbox.DeliveryFacade.PurgeOnce` | server/internal/delivery/facade.go:153-176 | The loop purges each organization that has a window by its own cutoff. |
| `Outbox.DeliveryFacade.Create` | server/internal/delivery/facade.go:507-533 | An endpoint is created only with a valid URL and filter and below the cap, enabled and with a clean counter. |
| `Outbox.DeliveryFacade.Set` | server/internal/delivery/facade.go:218-243 | The alias changes only the first endpoint's URL, or creates it. |
| `Outbox.DeliveryFacade.Update` | server/internal/delivery/facade.go:562-582 | An update replaces URL and filter and keeps status and counter. |
| `Outbox.DeliveryFacade.Delete` | server/internal/delivery/facade.go:586-595 | A deletion removes that endpoint of that organization only, and leaves its events. |
| `Outbox.DeliveryFacade.Enable` | server/internal/delivery/facade.go:602-616 | Enabling clears the counter. |
| `Outbox.DeliveryFacade.Disable` | server/internal/delivery/facade.go:621-634 | Disabling keeps the counter. |
| `SecretRotation.AtMostTwoLive` | server/internal/access/facade.go:179-247 | However often a key is rotated, with whatever overlaps and wherever writes fail, at most two secrets are live at any time and at most one has no expiry. |
| `SecretRotation.ExactlyOneActive` | server/internal/access/facade.go:179-222 | While every rotation completes, exactly one secret has no expiry. |
| `SecretRotation.LastRotationIsShown` | server/internal/access/secret.go:113-125 | After complete rotations any ordering of the list shows the last rotation's time and the end of its overlap, for every overlap that fits 64 bits. |
| `SecretRotation.RotationIsShownIff` | server/internal/access/secret.go:113-141 | After one complete rotation from any state, with an overlap longer than zero, that is shown exactly when there was an active secret to retire; otherwise nothing, or an overlap already over, is shown. |
| `SecretRotation.FailedSaveLosesView` | server/internal/access/facade.go:179-222 | A rotation that fails on saving the new secret leaves no active secret and nothing to show. |
| `SecretRotation.OldSecretAuthenticatesIff` | server/internal/access/facade.go:231-247 | After a complete rotation the retired active secret authenticates exactly until the overlap ends, and any other stops at once. |
| `SecretRotation.RotateKeepsBound` | server/internal/access/webhook_secret.go:109-174 | One rotation, wherever it stops, keeps the bound, and a complete one leaves exactly one active secret. |
| `SecretRotation.RotationDoes` | server/internal/access/facade.go:179-247 | A rotation with enough writes appends the new secret, gives the active one the end of the overlap, ends any other live one at once and touches no expired one; with fewer no secret is added. |
| `SecretRotation.OverlapAsAskedIff` | server/internal/access/facade.go:195-197 | The overlap is as long as asked exactly when it is at most 2562047 hours; one hour more is negative. |
| `SecretRotation.ActiveSecretIs` | server/internal/access/secret.go:81-88 | The active secret found has no expiry, and none is found only if every secret has one. |
| `SecretRotation.LatestExpiryIs` | server/internal/access/secret.go:130-141 | The latest expiry is one of those listed and none is later. |
| `SecretRotation.VerifiedIff` | server/internal/access/facade.go:262-284 | A stored secret verifies exactly while its key is not revoked and it has not expired. |
| `SecretRotation.Verify` | server/internal/access/facade.go:262-284 | The loop decides by the first candidate whose hash matches. |
| `SecretRotation.SecretStore.ExpireLiveSecrets` | server/internal/access/facade.go:231-247 | Retiring goes secret by secret and stops at the first failed write, keeping what it did. |
| `SecretRotation.SecretStore.RotateSecret` | server/internal/access/facade.go:179-222 | Secrets and answer after a rotation, with every write allowed to fail; the overlap is the hours asked for, 24 if none are, and a negative one is refused. |
| `SecretRotation.SecretStore.FindActiveSecret` | server/internal/access/secret.go:81-88 | The loop finds the last listed secret without an expiry. |
| `SecretRotation.SecretStore.FindLatestExpiry` | server/internal/access/secret.go:130-141 | The loop finds the greatest expiry. |
| `SecretRotation.SecretStore.ActiveSecrets` | server/internal/access/webhook_secret.go:183-201 | A delivery is signed with exactly the secrets that have no expiry or one not yet reached, in list order. |
| `ConfigImport.ReplaceReachesDocument` | server/internal/organizations/facade.go:388-526 | A successful replace leaves settings and URL-to-filter map equal to the document, with the cap normalised and absent and empty filters alike; URLs distinct on each side. |
| `ConfigImport.SecondDryRunPlansNothing` | server/internal/organizations/config.go:292-319 | After a successful import in either mode a dry run of the same import plans nothing. |
| `ConfigImport.NothingPlannedNothingChanged` | server/internal/organizations/facade.go:432-473 | If a dry run plans nothing, the import, however far it gets, changes no setting and no endpoint. |
| `ConfigImport.SettingsUnchangedIff` | server/internal/organizations/config.go:196-257 | A successful import leaves the settings as they were exactly when the dry run planned no change to them. |
| `ConfigImport.PlanReports` | server/internal/organizations/config.go:196-257 | A plan names each setting exactly when it would change, and each endpoint action that would be applied. |
| `ConfigImport.EntryPlans` | server/internal/organizations/config.go:292-319 | An entry plans a creation if no endpoint has its URL, nothing if the last one listed with it has the same filter, absent and empty alike, and an update of that one otherwise. |
| `ConfigImport.ImportSucceeds` | server/internal/organizations/facade.go:432-526 | An import succeeds in either mode if its settings and entries are acceptable, there is room for them, and the store takes the writes. |
| `ConfigImport.ImportNeeds` | server/internal/organizations/facade.go:432-526 | And it succeeds only if its settings are acceptable, the entries it acts on are, and the store takes every write. |
| `ConfigImport.ActionRefusedIff` | server/internal/organizations/facade.go:498-526 | An action is refused exactly for what the delivery side refuses, for a creation at the cap, or for an endpoint that is gone. |
| `ConfigImport.EarlyFailureKeeps` | server/internal/organizations/facade.go:498-526 | An import whose first write fails changes nothing; one whose second fails has stored the governance settings and nothing else. |
| `ConfigImport.SettingsRefusedIff` | server/internal/organizations/facade.go:255-360 | Settings are refused exactly for more featured integrations than the cap, which is 8 unless a positive one is given, or for a negative retention window. |
| `ConfigImport.AcceptedIff` | server/internal/delivery/facade.go:507-533 | An endpoint entry is refused exactly for a bad URL, an unknown event type or an empty filter. |
| `ConfigImport.MergeKeepsEndpoints` | server/internal/organizations/config.go:292-319 | A merge, however far it gets, keeps every endpoint and leaves those the document does not mention untouched. |
| `ConfigImport.MergeKeepsSettings` | server/internal/organizations/config.go:152-190 | A successful merge keeps every setting the document does not mention and takes every one it does, whatever the endpoints are; a stored cap of zero or less comes out as the default. |
| `ConfigImport.OwnExportPlansNothingIff` | server/internal/organizations/facade.go:388-419 | Replacing with an organization's own export plans nothing exactly when its stored cap is positive and endpoints that share a URL share a filter. |
| `ConfigImport.ConflictingDocumentNeverSettles` | server/internal/organizations/config.go:292-319 | A document that names a URL twice with different filters plans something against every organization. |
| `ConfigImport.ImportReaches` | server/internal/organizations/facade.go:432-526 | A successful import has every entry of the document as an endpoint, one per URL, and the resolved settings. |
| `ConfigImport.UpsertsReach` | server/internal/organizations/facade.go:498-526 | After the first n entries those are reached and everything else is as it was. |
| `ConfigImport.DeletesReach` | server/internal/organizations/facade.go:498-526 | After the deletions looked at so far, those omitted are gone and the entries stay reached. |
| `ConfigImport.OrganizationsFacade.IndexByURL` | server/internal/organizations/config.go:293-296 | The map by URL answers the last endpoint listed with each. |
| `ConfigImport.OrganizationsFacade.PlanEndpointActions` | server/internal/organizations/config.go:292-319 | The loops plan the creates, updates and deletes the application lemmas speak about. |
| `ConfigImport.OrganizationsFacade.ApplyActions` | server/internal/organizations/facade.go:506-525 | Actions are applied in order up to the first that fails. |
| `ConfigImport.OrganizationsFacade.ImportConfig` | server/internal/organizations/facade.go:432-473 | A dry run writes nothing and answers the plan; an import applies that plan as far as it gets. |
| `WorkerGroup.DrainIsSafe` | server/internal/worker/worker.go:167-190 | When a Stop has returned because drained is closed, or because the group was never started, no scheduled Run is in progress and none ever starts, for any loops, callers and interleaving. |
| `WorkerGroup.DrainedClosedAtMostOnce` | server/internal/worker/worker.go:178-184 | The drained channel is closed at most once. |
| `WorkerGroup.NothingLaunchesAfterStop` | server/internal/worker/worker.go:77-90 | Once a Stop has marked the group no Start launches a loop, then or later, and the wait group only goes down. |
| `WorkerGroup.StartLaunchesAll` | server/internal/worker/worker.go:77-90 | Over every run, once a Start has begun and nobody holds the mutex every loop of the group has been launched. |
| `WorkerGroup.StartBegins` | server/internal/worker/worker.go:77-90 | Start on a group nobody started or stopped begins to launch every loop; on any other it returns at once. |
| `WorkerGroup.HeldMutexBlocks` | server/internal/worker/worker.go:77-90 | While a Start is launching, no other Start and no Stop gets past the mutex. |
| `WorkerGroup.StartCanFinish` | server/internal/worker/worker.go:77-90 | From there launching what is left, in any order, and finishing returns with each of those loops asleep and counted. |
| `WorkerGroup.LoopTurns` | server/internal/worker/worker.go:92-115 | A pending nudge or its timer runs a sleeping loop, a run that ends puts it to sleep, and it leaves exactly once its own or its parent's context is done. |
| `WorkerGroup.StopBegins` | server/internal/worker/worker.go:167-190 | The first Stop of a started group cancels the loops and spawns the drainer. |
| `WorkerGroup.StopUnstarted` | server/internal/worker/worker.go:167-176 | A Stop of a group never started returns at once and keeps it from starting. |
| `WorkerGroup.StopReturns` | server/internal/worker/worker.go:178-190 | A waiting Stop returns drained exactly when drained is closed, or times out; a later Stop waits for the same drain. |
| `WorkerGroup.DrainCanFinish` | server/internal/worker/worker.go:92-115 | After the loops are cancelled there is always a schedule that closes drained by letting Runs in flight end, with no new Run on the way. |
| `WorkerGroup.WaitGroupCountsLiveLoops` | server/internal/worker/worker.go:77-99 | The wait group always stands at the number of loops not yet gone. |
| `WorkerGroup.RunIsSafe` | server/internal/worker/worker.go:77-190 | Mutual exclusion while launching, one caller in the once, one drainer, and the loop count hold in every reachable state. |
| `WorkerGroup.JitteredIsNear` | server/internal/worker/worker.go:117-127 | A wait is never negative and within the jitter of its interval. |
| `WorkerGroup.JitterReachesAll` | server/internal/worker/worker.go:117-127 | Every wait within the jitter that is not negative is drawn by some number, and without a jitter the wait is its interval. |
| `DottedBody.OrderIndependentIff` | server/internal/execution/facade.go:594-614 | The body a set of distinct keys builds is the same for every iteration order exactly when no key is a segment-wise prefix of another. |
| `DottedBody.BodyIsSameForEveryOrder` | server/internal/execution/poll.go:202-219 | The body of a mapping whose keys are apart is the same for any two iteration orders, and the lookup of each non-empty key finds its value. |
| `DottedBody.AllOrdersAgree` | server/internal/execution/facade.go:594-614 | Any reordering of apart entries builds the same object. |
| `DottedBody.OrderMatters` | server/internal/execution/facade.go:594-614 | Two entries that are not apart, written last in either order, give different bodies. |
| `DottedBody.CommuteIff` | server/internal/execution/facade.go:619-630 | Two writes commute, on every object, exactly when neither path is a prefix of the other or they are the same write. |
| `DottedBody.SetIsFound` | server/internal/execution/facade.go:619-630 | What was set at a path is found there. |
| `DottedBody.SetDisturbsNoOther` | server/internal/execution/facade.go:619-630 | Setting one path leaves every lookup apart from it as it was. |
| `DottedBody.SetBelowLeavesObject` | server/internal/execution/facade.go:619-630 | Setting below a path leaves an object there, whatever was there before. |
| `DottedBody.EachKeyIsFound` | server/internal/execution/facade.go:594-614 | Looking up each key of a prefix-free body gives its value. |
| `DottedBody.EachKeyIsPlaced` | server/internal/execution/facade.go:594-630 | In a body whose keys are apart, in any iteration order, the value of each two-segment key lies under its second segment in an object under its first, and that of each dot-free key under the key. |
| `DottedBody.LookupDescends` | server/internal/execution/poll.go:290-306 | The lookup of x.y, for dot-free x and y, descends through x to y; of a dot-free key it answers the member of that name. |
| `DottedBody.NothingElseIsFound` | server/internal/execution/poll.go:290-306 | A path apart from every key is not found. |
| `DottedBody.LookupFindsWhatWasSetIff` | server/internal/execution/poll.go:290-306 | The poll lookup of a key finds the value set under it exactly when the key is not empty: the empty key is answered with the whole body. |
| `DottedBody.JoinUndoesSplit` | server/internal/execution/facade.go:607 | Splitting a key at its dots loses nothing. |
| `DottedBody.SegmentsAreDotFree` | server/internal/execution/facade.go:607 | Every dot separates: no segment holds one. |
| `DottedBody.SplitUndoesJoin` | server/internal/execution/facade.go:607 | Splitting gives back every non-empty path of dot-free segments. |
| `DottedBody.DistinctKeysDistinctPaths` | server/internal/execution/facade.go:607 | Distinct keys have distinct paths. |
| `DottedBody.JsonObject.SetNested` | server/internal/execution/facade.go:619-630 | The in-place nested write, on objects updated through references, gives the object the value lemmas speak about and keeps the nesting a tree. |
| `DottedBody.JsonObject.ChildAt` | server/internal/execution/facade.go:624-628 | The child object under a key is reused if it is one, and otherwise replaces what was there. |
| `DottedBody.BuildBody` | server/internal/execution/facade.go:594-614 | The building loop: no body exactly if a template fails, otherwise the entries written in iteration order, dropped ones skipped; the last key, if it is x.y with no other dot, has its value under y in an object under x. |
| `DottedBody.LookupPollField` | server/internal/execution/poll.go:290-306 | The walking loop answers the value at the path, or nothing as soon as a segment is missing or not an object: for x.y the member y of the member x. |

## Left out

- HTTP routing, handlers, middleware, the connect pages, the admin UI and the TypeScript SDK: request plumbing and rendering.
- Database adapters and queries other than the claim, and migrations: ports are maps with the contracts the adapters document.
- Cryptography (vault, HMAC signing, Argon2id, JWT, SHA-256): a secret stands for itself behind its hash or ciphertext, and whether a content hash matches is a parameter.
- JSON, YAML and JSON Schema: encoding a bundle or a definition and decoding it is the identity, up to absent versus empty collections; whether samples satisfy a schema and whether a URL is absolute are parameters.
- Environment, wiring, metrics and log records: they hold no state the results speak about.
- Optional ports that are not wired: the poller, catalog and workers are modelled as wired in production.
- Whole-row writes of one caller over another's outside the interleavings of RefreshProtocol, CallbackRace and LeaseClaim: elsewhere each operation is one atomic step.
- Random sources: jitter is a number in [0, 1), minted ids are fresh, and the ids of outbox events and endpoints are counters.
- Listing, pagination, cursors, governance filtering of listings, dependents of a deletion, and when reconciliation runs: straight-line code.
- Rendering of templates: what a template renders to (a value, nothing, an error) is a parameter.
- RefreshProtocol.SingleFlight: its hypothesis, and that of UnforcedReuse, excludes row writes from outside the mutex, as Disable (connections/facade.go:296-309) and markReconciled (connections/reconcile.go:88-94) make; with them the claim is not the code's.
- RefreshProtocol.WrittenRotationRetires: the same hypothesis; a stale whole-row write can bring an old token back.
- RefreshProtocol.OneEventPerExpiry: a process that dies between its flip and its emission counts as still emitting.
- ConnectHandshake.ConnectFlow.Submit: which required parameters are blank (connections/oauth.go:200-211) is a parameter, as is the ciphertext their encryption gives.
- ConnectHandshake.IdentityNeverChanges: redirect URIs and account labels may change and are not part of the identity.
- RegistryPublish.OneSlugPerId: freshness of minted ids is per provider; ids across providers are not compared.
- RegistryPublish.DiffSlugs: the sorting of the two lists for output is not modelled.
- Activation.CatalogFacade.ActivateBundle: the pulled bundle's provider is taken as the one asked for wherever the lemmas need it; the code does not check it.
- Activation.CatalogFacade.PauseInstances: pausing the instances of one trigger slug is one step that succeeds or fails whole.
- LeaseClaim.LeaseTable.ClaimDue: the database's sort is given as an order of the rows, and rows another transaction has locked may be skipped; the order of the returned batch is not promised.
- LeaseClaim.OverlapNeedsOutlasting: times are those of one shared clock, and a dispatcher that makes no write ends without releasing.
- Outbox.DeliveryFacade.DispatchOne: the endpoint's secrets are always readable; a failure to read them would leave the event as claimed.
- Outbox.DeliveryFacade.PurgeOnce: a day is 24 hours, and a port failing halfway is a shorter list of organizations.
- OutboxRuns.CounterIsFailuresSince: an attempt counts once its endpoint write succeeded, so a failed endpoint write is not a failure booked.
- SecretRotation.SecretStore.RotateSecret: one rotation at a time; two that read the same list before either writes are not modelled. A revoked or unknown key is refused before this code.
- ConfigImport.OrganizationsFacade.ImportConfig: schema version, unknown modes and warnings about unknown integrations are left out, and change lines carry no text.
- WorkerGroup.DrainIsSafe: direct calls of a loop's Run through RunOnce are not scheduled Runs and are not covered.
- DottedBody.BuildBody: values are texts, as the tool and poll mappings render them, and the two builders share one model.

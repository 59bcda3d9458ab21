# Session lifecycle: rotation, lockout and the cached gate

This project models the session lifecycle of the service: login under a device
limit, refresh-token rotation with a grace window and reuse detection (the
scheme of RFC 9700 section 4.14.2), logout, the cache-aside gate in front of
every protected route, and the status changes that lock a user out. Two stores
must agree: the `users` and `sessions` tables, and a cache with expiring entries
(Redis, with an in-memory fallback) that may lose anything at any time.

`dafny verify dfyconfig.toml` checks all of it.

## How it is organised

| file | holds |
|---|---|
| `Types.dfy`, `Store.dfy` | users, sessions, token claims, the clock of one request; tables, cache, and the effects a request has on them |
| `Protocol.dfy` | what each request does, as a function: its ordered effects and its answer |
| `Invariants.dfy`, `Commits.dfy`, `Requests.dfy` | what always holds of the two stores, and why each effect and each request keeps it |
| `Runs.dfy` | runs of atomic requests, each stopped anywhere, with entries lost anywhere |
| `FreeRuns.dfy` | runs in which the cache is anything at all and every request may be stopped anywhere |
| `Transactions.dfy`, `Gatekeeping.dfy`, `History.dfy`, `Chains.dfy`, `Reuse.dfy`, `Independence.dfy` | the theorems about runs |
| `Outcomes.dfy`, `Writes.dfy`, `Credentials.dfy` | what each request answers, writes and leaves in the cache, in terms of rows, claims and numbers alone; what runs make of passwords and the age of tokens |
| `Boundaries.dfy`, `Witnesses.dfy` | where the guarantees stop: exact conditions, and whole runs in which they do |
| `Interleaving.dfy`, `Schedules.dfy` | requests interleaved at their awaits, and how the two views relate |
| `CacheClient.dfy` | the cache client, against a lossy map with expiring entries |
| `Entities.dfy`, `Database.dfy`, `Services.dfy`, `AuthServices.dfy` | the classes, statement by statement, proved against `Protocol` |

The classes keep a ghost journal of their effects on the two stores. Each
service method proves that its journal and its answer are those of the protocol
function for the reads it made, and `ServedIsStep` turns that into a step of a
run, so the theorems about runs are theorems about the classes.

`Outcomes` and `Writes` state the same protocol a second time, from the outside:
when each request answers what, in rows, literal claims and literal durations,
and none of the protocol's own definitions.

There are three kinds of run.

* **Atomic requests** (`Runs`). A request runs without another in between, but it
  may be stopped after any of its effects, and any cache entries may vanish
  before, during and after it. `logout`, `logout_all` and the breach path publish
  their revocations before they purge the cache, so in this view they finish;
  `CommitFirstStale` and `LogoutStopped` say exactly what stopping them costs.
* **Free runs** (`FreeRuns`). Atomic requests again, but the cache holds and
  answers anything, and every request may be stopped anywhere, `logout` included.
  Every run is a free run. What concerns tables and tokens alone is proved here.
* **Interleaved requests** (`Interleaving`). Between any two awaits any other
  request may act. Less survives (`EveryInterleaving`), `RunIsSchedule` shows
  that every run of atomic requests is one of these schedules, and
  `RotationsCanFork` shows that linear chains do not survive: no row is locked.

A clock reading is a parameter of each place the code reads the clock. Within a
request the readings do not go back; between two atomic requests the clock
strictly advances. `SameInstantDisagrees` shows why, in a run: the query for
active sessions wants `expires_at > now`, the gate still accepts `expires_at == now`.

## What turned out otherwise

* A locked-out user can still be handed a pair. The grace entry of a session that
  was rotated before the lockout is not purged, since only active sessions are
  listed for purging, so the rotated token replays its pair inside the window:
  `LockedOutReplay` is such a run, and `RefreshRefusesLockedOut` gives the exact
  condition and shows that the pair is dead.
* The gate reads identities through the cache. A user command stopped between its
  commit and its purge leaves an old identity there (`UserWriteStopped`), and then
  the gate errs exactly on such an identity (`GateErrsOnIdentities`); it is never
  misled by a cached session. In the run of `StoppedVerification` a verified user
  goes on being refused.
* The guarantee on replays is on the cache lookup, not on the age check: a replay
  hits exactly when its lookup precedes the entry's expiry (`ReplayHits`). In the
  run of `LateLookup` the age check passes and the lookup misses.
* A change of event loop makes the cache client forget that it failed over, and
  keys deleted during the outage are found again (`LoopChange`, `DeletedKeyReturns`).
* Rotating in the last second of a chain asks the cache for a time to live of zero.
  Redis refuses that, so the client turns to its fallback for good, where the entry
  never expires and nothing Redis held is found (`LastSecond`).

## Model

| member | source | states |
|---|---|---|
| Gatekeeping.GateRefines | src/modules/auth/dependencies/authentication.py:60-136 | In every reachable world whose user commands all finished, for any mix of hits, misses and vanished entries, the gate's answer (identity, status and role included) is that of a gate reading both tables directly. |
| Gatekeeping.GateErrsOnIdentities | src/modules/auth/dependencies/authentication.py:83-126 | With user commands stopped anywhere too, the two gates differ if and only if the token's session is live and the gate hit a cached identity whose verdict the row no longer bears out. |
| Gatekeeping.GateErrsExactly | src/modules/auth/dependencies/authentication.py:60-81 | With fresh identities the two gates differ if and only if a session hit calls a revoked session active. |
| Outcomes.GateDecision | src/modules/auth/dependencies/authentication.py:47-136 | In every reachable world whose user commands finished, the gate admits exactly an active user on an unrevoked, unexpired session of theirs with an unexpired access token, with the email and role of their row. |
| Outcomes.DirectGateOutcome | src/modules/auth/dependencies/authentication.py:128-136 | The verdict on each status, and when a token is refused as invalid, in terms of rows and claims. |
| Outcomes.GateNeedsLiveToken | src/modules/auth/dependencies/authentication.py:47-50 | Whatever is cached, the gate refuses a token as invalid if and only if it is unsigned or past its expiry in whole seconds, and admits on no such token. |
| Credentials.AdmittedRecently | src/shared/security.py:36-40 | Whoever the gate admits in a free run holds the access token of a login or refresh minted less than thirty minutes and one second before. |
| Credentials.TokenServesHalfHour | src/shared/security.py:62-70 | An access token is not refused as invalid for thirty minutes after it is minted, and always is from a second after that. |
| Credentials.PairsHaveOrigins | src/modules/auth/service.py:109-113 | Every pair in circulation in a free run is the answer to an earlier login or refresh that created its session. |
| Gatekeeping.AdmittedHolds | src/modules/auth/dependencies/authentication.py:75-81 | An admitted token names a committed, unrevoked, unexpired session of its own subject, whatever identities are cached. |
| Gatekeeping.GateRefusesLockedOut | src/modules/auth/dependencies/authentication.py:83-91 | A suspended, banned or deleted user is refused even on an arbitrarily stale `user:` snapshot. |
| Gatekeeping.LockoutIsAuthoritative | src/modules/users/service.py:157-175 | In every world of a free run a suspended, banned or deleted user has no unrevoked session. |
| Gatekeeping.RefreshRefusesLockedOut | src/modules/auth/service.py:168-202 | A locked-out user's refresh never rotates; it is answered with a pair if and only if the session is inside the grace window and its grace entry is found, and with an honest cache that pair's session is the user's own and revoked. |
| Independence.TablesIgnoreCache | src/modules/auth/service.py:131-140 | From equal tables, however reached, two free runs serving the same requests, stopped at the same points, keep equal tables and tokens, whatever their caches hold, lose or answer. |
| Independence.AnswersIgnoreCache | src/modules/auth/service.py:177-190 | ... and the same answers, except that inside the grace window one may replay a pair where the other says to retry. |
| Independence.GateAnswersIgnoreCache | src/modules/auth/dependencies/authentication.py:60-126 | With honest caches and finished user commands, gates over equal tables answer alike, whatever each finds cached. |
| Independence.OneOrdering | src/modules/auth/repository.py:66-78 | With distinct creation times a set of sessions has one oldest-first listing. |
| Transactions.AbortAnywhere | src/modules/auth/service.py:76-107 | Stopped after any effect, a login, rotation, status change or deletion leaves the tables wholly before or wholly after, and no cache entry that calls a revoked, unexpired session active. |
| Transactions.StepTables | src/modules/auth/service.py:204-237 | The tables change at a request's one commit and nowhere else. |
| Transactions.EventPublishes | src/modules/users/service.py:152-178 | Every request publishes at most one transaction, which respects the device limit, lockout, uniqueness of successors and write-once revocation. |
| Boundaries.CommitFirstStale | src/modules/auth/service.py:274-285 | `logout_all` stopped in its purge leaves no stale session if and only if every cached session it revoked has been purged or has expired. |
| Boundaries.LogoutStopped | src/modules/auth/service.py:261-272 | A logout stopped after its commit is harmless if and only if the session was not cached or has expired. |
| Boundaries.UserWriteStopped | src/modules/users/service.py:117-121 | A status change, deletion or profile update stopped anywhere leaves a stale identity if and only if it stopped between its commit and its last purge, the user was cached, and the write changed what is cached. |
| Witnesses.LockedOutReplay | src/modules/auth/service.py:177-190 | A run, at any times: login, refresh, suspension; then the rotated token is answered with the refresh's pair, whose session is revoked. |
| Witnesses.LateLookup | src/modules/auth/service.py:175-190 | A run, at any times: login, refresh; then a refresh whose age check passes but whose lookup comes after the entry expired is told to retry. |
| Witnesses.StoppedVerification | src/modules/users/service.py:156-163 | A run, at any times: an unverified user logs in and tries the gate, and verification stops after its commit; then the gate refuses whom the tables admit. |
| Witnesses.SameInstantDisagrees | src/modules/auth/repository.py:70-74 | A run: login, refresh a minute before the chain ends, `logout_all` at its end; at that instant the gate admits from the cache what the tables refuse. |
| Runs.Reachable | src/modules/auth/service.py:158-259 | Every reachable world satisfies the invariant: unique emails, lockout, linked chains, device limit, owned tokens, exact grace entries, projections that agree with their rows. |
| Runs.EventKeepsInv | src/modules/auth/service.py:54-285 | Each request, stopped anywhere its kind allows, keeps that invariant. |
| Outcomes.LoginOutcome | src/modules/auth/service.py:62-121 | A login of a visible user succeeds exactly for the right password of one neither suspended nor banned; otherwise which error; with claims, durations and user data spelled out. |
| Outcomes.LoginUnknown | src/modules/auth/service.py:62-64 | An email no visible user has is refused like a wrong password. |
| Outcomes.ActiveListing | src/modules/auth/repository.py:66-78 | A listing of active sessions is exactly those, each once, oldest first, in terms of rows. |
| Outcomes.RotationOutcome | src/modules/auth/service.py:142-222 | A refresh rotates exactly on an unexpired refresh token of an unrevoked, unexpired session of a user in standing; the new refresh token ends within a second of the chain. |
| Outcomes.RefreshOutcome | src/modules/auth/service.py:142-202 | Exactly when a refresh is refused for its token, kind, payload, session, expiry or user. |
| Outcomes.RevokedOutcome | src/modules/auth/service.py:169-194 | A revoked session: replay exactly on a live grace entry and retry without one up to thirty seconds, breach from then on. |
| Outcomes.CreateOutcome | src/modules/users/service.py:60-80 | A registration succeeds exactly if no row, deleted or not, has either name; and exactly when each error is reported. |
| Outcomes.UpdateOutcome | src/modules/users/service.py:101-123 | An update succeeds exactly for a visible user and names no other row has; and exactly when each error is reported. |
| Outcomes.CommandOutcome | src/modules/users/service.py:132-178 | Exactly when a password or status change, a deletion or a logout is done; the six edges of the status machine are each named. |
| Writes.UserWrites | src/modules/users/repository.py:106-176 | Each command writes its own columns of its own user, every other column staying, and no other request writes users. |
| Writes.LoginWrites | src/modules/auth/service.py:73-99 | A committed login adds a session of seven days that starts a chain, revokes exactly the oldest sessions beyond four, each at its own reading, and changes no other row. |
| Writes.RotationWrites | src/modules/auth/service.py:204-237 | A committed rotation revokes its session, adds a successor with the same user, expiry and device and the new address, and changes no other row. |
| Writes.RevocationWrites | src/modules/auth/repository.py:101-113 | `logout_all`, a lockout, a deletion and a breach revoke exactly the unrevoked sessions of the user, expired ones included. |
| Writes.LogoutWrites | src/modules/auth/service.py:261-267 | A logout revokes its session, a first revocation staying, and changes no other row. |
| Writes.FinishedCommits | src/modules/auth/service.py:54-285 | A finished request has committed if and only if it answers a success that writes, or a breach. |
| Writes.LoginCaches | src/modules/auth/service.py:78-107 | A finished login leaves the cache without the sessions it evicted and with the new one for seven days, and otherwise as it was. |
| Writes.RotationCaches | src/modules/auth/service.py:207-257 | A finished rotation leaves the cache without its session, with the successor until within a second of the row, and with the pair for thirty seconds. |
| Writes.LogoutCaches | src/modules/auth/service.py:269-272 | A finished logout leaves the cache without both keys of its session, and otherwise as it was. |
| Writes.RevocationCaches | src/modules/auth/service.py:281-285 | A finished `logout_all` or breach leaves the cache without both keys of each active session, and otherwise as it was. |
| Writes.CommandCaches | src/modules/users/service.py:117-178 | A finished command leaves the cache without the identity, a lockout without both keys of each active session too, and otherwise as it was. |
| Writes.GateWrites | src/modules/auth/dependencies/authentication.py:64-126 | The gate caches, for an hour, the projection of the row it had to read, and the identity it had to read, and nothing else. |
| Credentials.PasswordDecides | src/modules/users/service.py:132-144 | From the registration or change that set a password until the next change, along any free run, a login with another password is refused and one with it passes the credential check. |
| Credentials.PasswordHolds | src/modules/users/repository.py:155-165 | The password last set is the one on the row. |
| FreeRuns.FreeReachable | src/modules/auth/service.py:158-285 | In every free run tables and tokens satisfy the invariant: unique names, lockout, linked chains, device limit, owned tokens. |
| FreeRuns.FreeStepCases | src/modules/auth/service.py:131-140 | Whatever it finds cached and wherever it stops, a request changes neither tables nor tokens, or changes them as an honest one with an empty cache. |
| Requests.LoginSafe | src/modules/auth/service.py:73-107 | Every prefix of a login keeps the invariant. |
| Requests.RotationSafe | src/modules/auth/service.py:204-257 | Every prefix of a rotation keeps the invariant. |
| Requests.LockoutSafe | src/modules/auth/session_revoker.py:36-40 | Every prefix of a lockout keeps the invariant: the purge precedes the commit. |
| Requests.CommitThenPurge | src/modules/auth/service.py:278-285 | Revoking first keeps the invariant once the purge is complete. |
| Commits.CommitKeepsTables | src/modules/auth/repository.py:42-113 | A transaction that revokes live rows once, and inserts either a root with room or a successor of a row it revokes, keeps the tables in order. |
| Commits.StaleFree | src/modules/auth/service.py:204-208 | Dropping from the cache what a transaction revokes keeps cached revocations in agreement with the rows. |
| Reuse.BreachExact | src/modules/auth/service.py:168-194 | A revoked session's token changes no row up to thirty seconds after the revocation; from then on, stopped anywhere past its commit, the request leaves the session's owner without an unrevoked session, keeps earlier revocation times, and touches no other row. |
| Reuse.ReplayExact | src/modules/auth/service.py:177-190 | A replay hands out the pair issued for the one successor of the session, inside the window, and writes nothing. |
| Reuse.ReplayHits | src/modules/auth/service.py:249-257 | Without loss or logout, a refresh inside the window is answered with the rotation's own pair exactly when its lookup precedes the entry's expiry, and always when it comes within thirty seconds of `revoked_at`. |
| Reuse.GraceSurvives | src/modules/auth/service.py:281-285 | Once a session is revoked, nothing but its own logout, or a loss, touches its grace entry. |
| Reuse.RotationWritesGrace | src/modules/auth/service.py:252-257 | A finished rotation leaves its predecessor revoked and the new pair under its grace key. |
| Reuse.TokenOwnership | src/modules/auth/service.py:218-237 | Every token issued in any free run names a committed session whose user is its subject. |
| History.RevocationFinal | src/modules/auth/entities.py:137-140 | A revoked session's row, `revoked_at` included, never changes again in any free run. |
| History.RevokedNeverAdmitted | src/modules/auth/dependencies/authentication.py:75-76 | In every continuation its access token is refused. |
| History.RevokedNeverRotates | src/modules/auth/service.py:168-194 | In every continuation, free runs included, its refresh token creates no session. |
| History.SessionsAccountedFor | src/modules/auth/service.py:90-99 | Chain roots are exactly the sessions of committed logins, all other sessions those of committed rotations, none twice. |
| History.Conservation | src/modules/auth/service.py:224-237 | The number of session rows is the number of committed logins plus committed rotations. |
| History.StatusPath | src/modules/users/entities.py:69-82 | A user's statuses along a free run stay put or move along one of the six edges of the machine, each named. |
| History.StatusAbsorbing | src/modules/users/entities.py:71-76 | Nobody re-enters PENDING_VERIFICATION; a ban and a soft deletion are for good. |
| History.BarredForever | src/modules/users/repository.py:43-63 | After a ban or deletion no later login or rotation of that user succeeds, in any free run. |
| History.BarredFromGates | src/modules/auth/dependencies/authentication.py:83-134 | With an honest cache their gate calls fail too, and any pair replayed to them is dead. |
| History.OldTokensNeverRotate | src/modules/auth/service.py:168-194 | A refresh token issued before a lockout creates no session ever after, reactivated or not. |
| History.OldTokensNeverAdmitted | src/modules/users/service.py:157-163 | An access token issued before a lockout is refused ever after, reactivated or not. |
| Chains.Root | src/modules/auth/service.py:224-234 | Following `previous_session_id` ends in a login's session: chains are acyclic. |
| Chains.NoForks | src/modules/auth/service.py:224-234 | A chain has one session per depth. |
| Chains.AncestorsRevoked | src/modules/auth/service.py:204-206 | Every session above another in its chain is revoked. |
| Chains.OneLivePerLogin | src/modules/auth/service.py:204-237 | A login has at most one unrevoked session, and it is the last of its chain. |
| Chains.ReachableChains | src/modules/auth/service.py:204-237 | Chains are in order in every world of a free run, so the statements on chains hold of it. |
| Chains.OneAdmittedPerLogin | src/modules/auth/dependencies/authentication.py:60-81 | In any reachable world the gate admits at most one session per login. |
| Chains.ChainInherits | src/modules/auth/service.py:213-228 | Every session of a chain has its login's user and expiry. |
| Chains.ChainLifetime | src/modules/auth/service.py:196-222 | A rotation happens only up to the login's expiry, hands it on, and mints a refresh token that exceeds it by at most the time since the expiry check and falls short of it by less than a second. |
| Chains.RemainingFits | src/shared/security.py:55-59 | ... which are the two bounds of the whole-second arithmetic. |
| Chains.DeviceLimit | src/modules/auth/service.py:73-83 | In every world of a free run a user has at most five active sessions. |
| Chains.LoginLeavesFive | src/modules/auth/service.py:74-99 | From n active sessions a login leaves min(n, 4) + 1, evicts only sessions no newer than those it keeps, and leaves other users' sessions alone. |
| Chains.RotationKeepsCount | src/modules/auth/service.py:204-237 | A rotation leaves every user's number of active sessions as it was. |
| Interleaving.EveryInterleaving | src/modules/auth/repository.py:80-113 | Under every interleaving, abort and loss: a session with a successor is revoked and hands on user and expiry, cached projections agree with their rows on id, user and expiry, tokens name sessions of their subjects, rows change in nothing but a revocation that is never taken back. |
| Interleaving.InterleavedOwnership | src/modules/auth/service.py:218-237 | Under every interleaving every token issued names a committed session whose user is its subject. |
| Interleaving.InterleavedInheritance | src/modules/auth/service.py:213-234 | Under every interleaving a session has the user and expiry of its predecessor, which is revoked. |
| Interleaving.NextOk | src/modules/auth/service.py:204-257 | Each single await keeps that. |
| Interleaving.NeverAdmitsStrangersOrLate | src/modules/auth/dependencies/authentication.py:64-81 | Under every interleaving the gate admits only for the session's own user, and never past its expiry or the token's. |
| Interleaving.QueueGrows | src/modules/auth/service.py:205-257 | Effects still to come stay right whatever other requests commit first. |
| Schedules.RunIsSchedule | src/modules/auth/service.py:54-285 | Every run of atomic requests is a schedule of interleaved ones. |
| Schedules.StepIsSchedule | src/modules/auth/service.py:54-285 | Every atomic request, wherever it stops, is a schedule of awaits, whatever other requests are under way. |
| Schedules.GateAlone | src/modules/auth/dependencies/authentication.py:60-136 | Run alone, the gate taken await by await decides and caches what the atomic gate does. |
| Schedules.RotationsCanFork | src/modules/auth/service.py:164-237 | Whenever two refreshes would each rotate a session, overlapping they both do: it ends with two unrevoked successors. |
| CacheClients.LookupIsLatest | src/core/cache.py:92-110 | Within one event loop, despite arbitrary errors and losses, a lookup finds nothing or the latest undeleted, unexpired value. |
| CacheClients.HoldsLatest | src/core/cache.py:92-141 | Every entry the client still holds is the last one set for its key and not deleted since. |
| CacheClients.LookupFindsLatest | src/core/cache.py:92-103 | Once the client has failed over, or as long as Redis answers and drops nothing, a lookup is exactly the latest value set, if that is live, whatever calls on other keys came between. |
| CacheClients.KeepsLatest | src/core/cache.py:112-141 | ... because no call loses the live entry of another key. |
| CacheClients.SetThenGet | src/core/cache.py:117-118 | What was just set is found until it expires. |
| CacheClients.FailsOverOnce | src/core/cache.py:107-110 | Within one event loop failover is one-way and happens at most once. |
| CacheClients.GetRefines | src/core/cache.py:92-110 | A lookup on the client is a lookup in the map it stands for, but for lost entries; when nothing goes wrong it finds exactly what is held and live, and keeps every other entry. |
| CacheClients.SetRefines | src/core/cache.py:112-126 | A write on the client is a write to that map, but for lost entries; when nothing goes wrong it changes that key and no other. |
| CacheClients.DeleteRefines | src/core/cache.py:128-141 | A deletion on the client is a deletion from that map, but for lost entries; when nothing goes wrong it removes that key and no other. |
| CacheClients.LoopChange | src/core/cache.py:55-66 | Entering another loop brings back lost entries if and only if the client had failed over, Redis answers, and Redis holds what the fallback does not. |
| CacheClients.DeletedKeyReturns | src/core/cache.py:58-66 | A key deleted during an outage is found again after a change of loop. |
| CacheClients.LastSecond | src/modules/auth/service.py:216-245 | Caching a rotated session makes a connected client fail over if and only if Redis errs or less than a second of the chain is left; it then finds nothing that Redis held, and in the last second holds an entry that never expires. |
| CacheClients.CacheClient.Init | src/core/cache.py:52-90 | Connects once per loop; a failed ping activates the fallback. |
| CacheClients.CacheClient.Get | src/core/cache.py:92-110 | The lookup of the specification; the retry after an error ends because the fallback is then active. |
| CacheClients.CacheClient.Set | src/core/cache.py:112-126 | The write of the specification, retried on the fallback. |
| CacheClients.CacheClient.Delete | src/core/cache.py:128-141 | The deletion of the specification, retried on the fallback. |
| Entities.UserSession.Revoke | src/modules/auth/entities.py:137-140 | The first `revoked_at` stays. |
| Entities.UserEntity.TransitionTo | src/modules/users/entities.py:69-82 | Accepts exactly the six edges, each named, and staying put, and changes nothing otherwise. |
| Entities.UserEntity.Deactivate | src/modules/users/entities.py:84-88 | Refuses a user already deleted, and stamps any other. |
| Databases.Database.Commit | src/modules/auth/service.py:237 | Publishes the whole pending transaction. |
| Databases.AuthRepository.GetSessionById | src/modules/auth/repository.py:58-64 | The row as the transaction reads it, or nothing. |
| Databases.AuthRepository.GetActiveSessionsForUser | src/modules/auth/repository.py:66-78 | Exactly the unrevoked sessions of the user that the transaction reads with `expires_at` after now, oldest first. |
| Databases.AuthRepository.UpdateSession | src/modules/auth/repository.py:80-99 | The transaction then reads the entity's row and every other row as before; a mere revocation is written as one. |
| Databases.AuthRepository.RevokeAllSessions | src/modules/auth/repository.py:101-113 | Revokes every unrevoked row of the user the transaction reads, expired ones included, and no other. |
| Databases.AuthRepository.CreateSession | src/modules/auth/repository.py:42-56 | Adds the new row to the pending transaction, or fails on an id already in use. |
| Databases.UserRepository.GetById | src/modules/users/repository.py:43-52 | The row, unless it is soft-deleted. |
| Databases.UserRepository.GetByEmail | src/modules/users/repository.py:54-63 | The one visible user with that email. |
| Databases.UserRepository.GetByUsername | src/modules/users/repository.py:65-74 | The one visible user with that username. |
| Databases.UserRepository.GetByEmailOrUsername | src/modules/users/repository.py:76-85 | The one visible user with either name, or the failure of finding two. |
| Databases.UserRepository.Create | src/modules/users/repository.py:106-129 | Adds the row to the pending transaction, or fails on a key or name already in a row, deleted or not. |
| Databases.UserRepository.Update | src/modules/users/repository.py:131-145 | Refuses credentials and statuses, fails on a missing row or a name already taken, and otherwise adds the write to the pending transaction. |
| Databases.UserRepository.SetStatus | src/modules/users/repository.py:167-176 | Adds the status to the pending transaction, if there is such a row. |
| Databases.UserRepository.SetCredentials | src/modules/users/repository.py:155-165 | Adds the password hash to the pending transaction, if there is such a row. |
| Services.AuthSessionRevoker.RevokeUserSessions | src/modules/auth/session_revoker.py:29-40 | Revokes every row in the pending transaction, purges the cache of each active one, and commits nothing. |
| Services.UserService.CreateUser | src/modules/users/service.py:60-80 | Serves the protocol's answer and effects: which name is taken, two users found, a name held by a deleted row, or an active user. |
| Services.UserService.UpdateUser | src/modules/users/service.py:93-123 | Serves the protocol's answer and effects for any choice of email and username. |
| Services.UserService.SetPassword | src/modules/users/service.py:132-144 | Serves the protocol's answer and effects. |
| Services.UserService.ChangeStatus | src/modules/users/service.py:146-164 | Serves the protocol's answer and effects: purge and revocation before the commit, the identity purged after it. |
| Services.UserService.WriteStatus | src/modules/users/service.py:156-163 | The effects of a status write in their order; a lockout purges and revokes before the commit. |
| Services.UserService.DeleteUser | src/modules/users/service.py:166-178 | Serves the protocol's answer and effects. |
| Services.ServedIsStep | src/modules/users/service.py:146-178 | Whatever serves is a finished step of a run with that answer. |
| AuthServices.AuthService.EvictOldest | src/modules/auth/service.py:74-82 | Revokes the oldest sessions down to four and drops each from the cache, in order. |
| AuthServices.AuthService.Authenticate | src/modules/auth/service.py:54-121 | Serves the protocol's answer and effects: credentials, status, eviction, creation, commit, then the cache. |
| AuthServices.AuthService.OpenSession | src/modules/auth/service.py:73-107 | The login's effects in their order, and the pair of the new session. |
| AuthServices.AuthService.RefreshToken | src/modules/auth/service.py:142-202 | Serves the protocol's answer and effects in every outcome of a refresh. |
| AuthServices.AuthService.AnswerRevoked | src/modules/auth/service.py:168-194 | The grace and breach branches of the protocol. |
| AuthServices.AuthService.Rotate | src/modules/auth/service.py:204-259 | The rotation's effects in their order, and its pair. |
| AuthServices.AuthService.Logout | src/modules/auth/service.py:261-272 | Serves the protocol's answer and effects. |
| AuthServices.AuthService.RevokeOne | src/modules/auth/service.py:265-272 | Commits the revocation, the first `revoked_at` staying, and then purges both keys. |
| AuthServices.AuthService.LogoutAll | src/modules/auth/service.py:274-285 | Serves the protocol's answer and effects: the commit first, then the purge of each active session. |
| AuthServices.GetCurrentUser | src/modules/auth/dependencies/authentication.py:35-136 | Serves the protocol's answer and effects for any mix of hits and misses. |

## Left out

- Routers, cookies, middleware, response envelopes and settings. Settings have their defaults: thirty minutes, seven days, five devices, thirty seconds.
- bcrypt, JWT signing, UUIDs, JSON and ISO dates: a password predicate, claims that decode to themselves until they expire, identifiers supplied fresh by the caller, values cached as they are. A signature is modelled by the rule that only claims handed out in the run are presented as signed.
- The empty-identifier checks of refresh and gate beyond a missing `jti` or `sid`; naive timezones.
- Timestamps of users.
- New identifiers: those drawn for a new user or session are taken to be unused, as random UUIDs are.
- SQLAlchemy: flushed rows are a pending transaction, a commit publishes it at once, a failure or an abort discards it. The identity map is not part of the model. A transaction writes at most one user row, as every service method does. The database's own choice among equal `created_at` values is left open.
- Hard deletion, foreign-key actions, role changes, `activate`, `change_password` on the entity, and direct edits of the tables: no service method reaches them.
- Listing and counting users, pagination, the role guard, conversion of errors to responses.
- Errors other than Redis errors, such as a cancelled task inside a cache call: a request that ends early is a request stopped after some effect.
- Several processes sharing one Redis. Changes of event loop are modelled for the cache client alone, not in runs.
- In the interleaved view: the answers of requests other than the gate's, and the values of `revoked_at`, which overlapping requests may overwrite. Cache agreement, the device limit, lockout and unique successors are claimed for atomic requests only.
- Interleaving.EveryInterleaving: says that a revocation is never taken back, not that its time stays, because two overlapping requests may both write it.

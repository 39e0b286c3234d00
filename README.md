# synchromesh registry, modelled in Dafny

synchromesh polls named data sources on timers. It compares each fetched value
with the value cached for that source and pushes changes to Server-Sent-Events
sessions. This project models the registry at the heart of it and proves
properties of that model.

- **Core package.** `SyncManager` (packages/core/src/sync-manager.ts) and
  `SseSyncManager` (packages/core/src/index.ts) keep a
  `Map<string, DataSource>` called `registeredDataSource`.
  - `registerDataSource` opens a session, starts an interval and then stores
    `{data: null, intervalId}` under the name.
  - On each tick, the interval callback looks the name up again and returns if
    the name is gone. Otherwise, when the fetched value is not deeply equal to
    the cached one, it writes the new value into the entry and pushes
    `(nextData, name)` to its session.
  - `unregisterDataSource` clears the interval and deletes the entry. It does
    nothing for an unknown name.
- **Server package.** The test file packages/server/src/sync-manager.spec.ts
  pins down the registry contract of the server `SyncManager`:
  - the constructor and `registerSyncSource` take one spec or an array of
    specs;
  - a duplicate name throws;
  - unknown names are ignored on removal;
  - `syncSource.size` counts the entries.

Files:

- `values.dfy` (`Values`): the fetched data as a JSON value tree, with
  `undefined` distinct from `null`. lodash `isEqual` becomes `==`, and `diff`
  in utils.ts is `IsEqual`.
- `registry.dfy` (`Registry`): the core registry as a value-level state
  machine.
  - The state holds the map, the interval callbacks and the set of live
    interval handles.
  - Registration number k owns interval handle k and session k. The callback
    of handle k remembers which name it looks up and which session it pushes
    to, and the sequence of events pushed to that session is recorded.
  - A bookkeeping map `history` records the values pushed under each name
    since that name was last registered. The invariant ties the cached data to
    it and to the last event some session of that name received.
  - The file defines the three transitions and proves the lemmas about them.
- `sync_manager.dfy` (`CoreSyncManager.SyncManager`) and
  `sse_sync_manager.dfy` (`CoreSseSyncManager.SseSyncManager`): the two
  classes. Their fields are `registeredDataSource`, the live timers, the
  callbacks and a ghost `history` field that holds the bookkeeping map.
  - Each method does what the source's method does, step by step.
  - Each method is proved to move the object's abstract state exactly as the
    matching `Registry` function does, and to keep `Registry.Valid`.
  - Three client methods replay scenarios. `PriceTicks` (sync_manager.dfy)
    shows that a repeated value is suppressed and a change is pushed.
    `DuplicateRegistrationLeaks` and `OrphanIntervalPushes`
    (sse_sync_manager.dfy) show that a name registered twice leaves its first
    interval live, and that this interval keeps pushing to its own session.
- `server_sync_manager.dfy` (`ServerSyncManager`): a name-unique registry for
  the server package.
  - A refused registration is an explicit `DuplicateName` error.
  - `New` stands for the constructor that can throw.
  - Five test methods replay the five tests of the test file against the
    contracts; each returns what its test observes.
- `wrappers.dfy`: `Option`, `Result`, `Outcome`.

Unlike the server `SyncManager`, whose tests show that it refuses a duplicate
name, the core classes overwrite an existing entry: `registerDataSource` does
not check the name and does not clear the old interval, and every interval
starts ticking as soon as it is registered.
`RegisterOverwritesWithoutClearing`, `OrphanStillPushes`,
`OrphanStarvesNewSession` and `OrphanPersists` state the consequences. The old
interval keeps running and is never cleared again. If the name is registered
anew, that old interval updates the new entry while pushing to the old session,
and a value it has written is then suppressed for the new session.

## Model

| member | source | states |
|---|---|---|
| Registry.Empty | packages/core/src/sync-manager.ts:27 | a new manager has no entries, no live intervals and no sessions, and satisfies the registry invariant |
| Registry.Register | packages/core/src/sync-manager.ts:33-71 | after registration the name maps to `{data: null}` and a handle that was not live before; other entries are unchanged; the live set only grows (a replaced entry's interval is not cleared); one new callback with an empty session closes over the name; its push history is reset |
| Registry.Unregister | packages/core/src/sync-manager.ts:73-82 | an unknown name changes nothing; a known name loses its entry, exactly its interval leaves the live set, and every other entry, callback and session is unchanged |
| Registry.Tick | packages/core/src/sync-manager.ts:42-63 | a tick writes and pushes only when its interval is live, the name is registered and the fetched value differs from the cached one; then the entry's data becomes the value, its interval id is kept, exactly one `(nextData, name)` is appended to that interval's own session, and no other entry, session or push history changes; otherwise the state is unchanged |
| Registry.RegisterPreservesValid | packages/core/src/index.ts:64-67 | registration keeps the invariant: each entry is owned by a live interval whose callback looks up that name, its cached data is the last value pushed under it, and once something was pushed, some session of that name holds it as its last event |
| Registry.UnregisterPreservesValid | packages/core/src/index.ts:72-81 | unregistration keeps the registry invariant |
| Registry.TickPreservesValid | packages/core/src/index.ts:53-60 | a tick keeps the invariant, and every pushed event stays tagged with its callback's name |
| Registry.TickPushesOnce | packages/core/src/index.ts:50-61 | a tick adds one event to its own session when `diff` returns false (the values differ), and none otherwise; other sessions get nothing |
| Registry.TickIdempotent | packages/core/src/index.ts:50-57 | repeating a tick with the same fetched value is the same as ticking once: no second push |
| Registry.SameValueNotPushedTwice | packages/core/src/sync-manager.ts:51-61 | right after an update with v under a name, a tick with v of any interval that looks up that name pushes nothing and changes nothing |
| Registry.RegisterOverwritesWithoutClearing | packages/core/src/sync-manager.ts:65-68 | registering a present name gives it a new handle and leaves the old interval live and owned by no entry |
| Registry.OrphanStillPushes | packages/core/src/index.ts:41-67 | after a re-registration, a tick of the old interval with a non-null value updates the new entry and pushes to the old session |
| Registry.UnregisterStopsTicks | packages/core/src/index.ts:72-81 | once a name is unregistered, a tick of its interval changes nothing, after any later sequence of registrations, unregistrations and ticks |
| Registry.ClearedStaysCleared | packages/core/src/index.ts:41-79 | a handle that was issued and then cleared is never live again, whatever operations follow, because each registration adds only a fresh handle |
| Registry.OrphanStarvesNewSession | packages/core/src/index.ts:41-67 | after a re-registration, once the old interval has written a non-null value into the new entry, the new interval's tick with that value changes nothing, and the new session is still empty |
| Registry.UnregisterIdempotent | packages/core/src/index.ts:72-77 | unregistering a name twice equals unregistering it once |
| Registry.RegisterThenUnregister | packages/core/src/sync-manager.ts:65-81 | registering a new name and unregistering it restores the entries and the live intervals; only the empty session remains |
| Registry.StepPreservesValid | packages/core/src/index.ts:41-81 | each of the three operations keeps the registry invariant |
| Registry.RunPreservesValid | packages/core/src/index.ts:41-81 | any sequence of registrations, unregistrations and ticks keeps the registry invariant |
| Registry.CacheIsLastPush | packages/core/src/sync-manager.ts:54-67 | after any sequence of operations from a new manager, a registered name's cached data is the last value pushed under it since its last registration, or `null` if nothing was pushed; once something was pushed, that data is the last event of some session of that name |
| Registry.StepPreservesOrphan | packages/core/src/sync-manager.ts:42-81 | no operation clears or adopts an orphan interval |
| Registry.OrphanPersists | packages/core/src/sync-manager.ts:33-82 | an orphan interval stays live after any sequence of operations |
| CoreSyncManager.SyncManager.constructor | packages/core/src/sync-manager.ts:27 | the new object's state is the empty registry |
| CoreSyncManager.SyncManager.RegisterDataSource | packages/core/src/sync-manager.ts:33-71 | the new state is `Registry.Register` of the old one, and the invariant holds |
| CoreSyncManager.SyncManager.UnregisterDataSource | packages/core/src/sync-manager.ts:73-82 | the new state is `Registry.Unregister` of the old one, and the invariant holds |
| CoreSyncManager.SyncManager.Tick | packages/core/src/sync-manager.ts:42-63 | the new state is `Registry.Tick` of the old one, with `isEqual` as the comparison |
| CoreSseSyncManager.SseSyncManager.constructor | packages/core/src/index.ts:31 | the new object's state is the empty registry |
| CoreSseSyncManager.SseSyncManager.RegisterDataSource | packages/core/src/index.ts:33-70 | the new state is `Registry.Register` of the old one, and the invariant holds |
| CoreSseSyncManager.SseSyncManager.UnregisterDataSource | packages/core/src/index.ts:72-81 | the new state is `Registry.Unregister` of the old one, and the invariant holds |
| CoreSseSyncManager.SseSyncManager.Tick | packages/core/src/index.ts:41-62 | the new state is `Registry.Tick` of the old one, with `!diff(data, nextData)` deciding the update |
| ServerSyncManager.RegisterOne | packages/server/src/sync-manager.spec.ts:53-69 | a single spec fails with `DuplicateName` exactly when its name is present; otherwise the registry gains exactly that entry, size grows by one, and existing entries are unchanged |
| ServerSyncManager.RegisterAll | packages/server/src/sync-manager.spec.ts:32-51 | a batch never changes existing entries and registers only names from the batch; an accepted batch adds all its names, and size grows by the batch length; a refusal names a name of the registry or of the batch |
| ServerSyncManager.RegisterAllFailsIffDuplicate | packages/server/src/sync-manager.spec.ts:53-69 | a batch is refused exactly when one of its names is already present or repeats an earlier one, and the error names a registered name |
| ServerSyncManager.Unregister | packages/server/src/sync-manager.spec.ts:71-87 | an unknown name leaves the registry as it was; a known name reduces size by one and removes only that key |
| ServerSyncManager.ConstructOne | packages/server/src/sync-manager.spec.ts:5-13 | a manager built from one spec holds exactly that one source |
| ServerSyncManager.RegisterTwo | packages/server/src/sync-manager.spec.ts:15-30 | two specs with distinct names are accepted and give size 2 |
| ServerSyncManager.RegisterDuplicateRefused | packages/server/src/sync-manager.spec.ts:53-69 | registering a present name is refused with `DuplicateName` and the registry is unchanged |
| ServerSyncManager.SyncManager.constructor | packages/server/src/sync-manager.spec.ts:32-34 | `new SyncManager()` has size 0 |
| ServerSyncManager.SyncManager.RegisterSyncSource | packages/server/src/sync-manager.spec.ts:32-69 | the new registry and the thrown error, if any, are those of `RegisterAll` over the one or many specs |
| ServerSyncManager.SyncManager.UnregisterSyncSource | packages/server/src/sync-manager.spec.ts:71-87 | the new registry is `Unregister` of the old one |
| ServerSyncManager.New | packages/server/src/sync-manager.spec.ts:5-30 | construction with one or many specs fails exactly when the batch is refused; otherwise it gives a fresh manager holding the batch's registry |
| ServerSyncManager.TestAddedOnCreation | packages/server/src/sync-manager.spec.ts:5-13 | a manager constructed with one spec reports size 1 |
| ServerSyncManager.TestManyAddedOnCreation | packages/server/src/sync-manager.spec.ts:15-30 | a manager constructed with the specs `test1` and `test2` reports size 2 |
| ServerSyncManager.TestAddedByRegister | packages/server/src/sync-manager.spec.ts:32-51 | an empty manager reports size 0, and size 2 after `registerSyncSource` of `test1` and `test2` |
| ServerSyncManager.TestDuplicateThrows | packages/server/src/sync-manager.spec.ts:53-69 | a manager holding `test1` reports size 1, and registering `test1` again throws |
| ServerSyncManager.TestRemovedByName | packages/server/src/sync-manager.spec.ts:71-88 | from `test1` and `test2`, unregistering `test999` and then `test2` leaves size 1 |

## Left out

- Timers: `setInterval` cadence and `intervalMs`/`syncIntervalMs` have no behaviour here. An interval handle is an abstract number, `clearInterval` removes it from the set of live handles, and a tick is a method the environment may call for any handle. A cleared handle does not fire.
- Sessions and SSE: `createSession` and `session.push` belong to an external library. A session is the sequence of `(data, event)` pairs pushed to it; the wire framing is not modelled.
- Asynchrony: each `registerDataSource` and each tick runs as one atomic step. The `await createSession` before registration, overlapping ticks of one interval, and a stale snapshot written after an `await fetcher()` are not modelled.
- Fetchers: the fetched value is a parameter of `Tick`. Fetch failures, which the source does not catch, are not modelled.
- Equality: lodash `isEqual` is structural `==` on a JSON value tree, and `diff` in utils.ts is `IsEqual`, that is `==`. `undefined` is a value distinct from `null`, and numbers are integers. Floating point, NaN and JavaScript prototype corner cases are not modelled.
- Logging via pino is left out.
- Server package: only what packages/server/src/sync-manager.spec.ts asserts is modelled. Its `watch`, `unwatch`, `registerSession` and per-source `diff` option are not, because the test file says nothing about them.
- ServerSyncManager.RegisterAll: the test file only shows that a single duplicate throws. That a refused item stops the batch and keeps the entries registered before it is a modelling choice; the test file does not show it.
- Examples, the React client, the price simulator and the build and test configuration are applications and configuration, not part of the core.

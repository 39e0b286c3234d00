/**
 * The named-source registry of the core package, as a value-level state
 * machine shared by `SyncManager` (packages/core/src/sync-manager.ts) and
 * `SseSyncManager` (packages/core/src/index.ts), whose bodies are the same.
 *
 * Every call of `registerDataSource` performs one `createSession` and one
 * `setInterval`; registration number k owns interval handle k, whose
 * callback closes over the registered `name` and session k. A session is
 * modelled as the sequence of events pushed to it, and the Node timer table
 * as the set of handles not yet passed to `clearInterval`.
 */
module Registry {
  import opened Values

  type TimerId = nat

  /** The `DataSource` record stored in `registeredDataSource`. */
  datatype DataSource = DataSource(data: Value, intervalId: TimerId)

  /** One `session.push(data, event)`. */
  datatype Push = Push(data: Value, event: string)

  /** What the k-th interval callback closes over: the name it looks up and the session it pushes to. */
  datatype Callback = Callback(name: string, session: seq<Push>)

  datatype State = State(
    sources: map<string, DataSource>,    // registeredDataSource
    callbacks: seq<Callback>,            // callbacks[k] belongs to interval handle k
    live: set<TimerId>,                  // handles not passed to clearInterval
    history: map<string, seq<Value>>)    // values pushed under a name since it was last registered

  /** The value cached for a name whose pushes since registration are `h`. */
  function Last(h: seq<Value>): Value
  {
    if h == [] then Null else h[|h| - 1]
  }

  function HistoryOf(s: State, name: string): seq<Value>
  {
    if name in s.history then s.history[name] else []
  }

  /** The last event pushed to a callback's session is `p`. */
  predicate SessionEndsWith(cb: Callback, p: Push)
  {
    cb.session != [] && cb.session[|cb.session| - 1] == p
  }

  /** The entry under `name` is owned by a live interval whose callback looks up `name`;
      its cached data is the last value pushed under `name` since registration, and once
      something was pushed, some session of that name has that value as its last event. */
  ghost predicate Registered(s: State, name: string)
    requires name in s.sources
  {
    var id := s.sources[name].intervalId;
    && id < |s.callbacks|
    && s.callbacks[id].name == name
    && id in s.live
    && name in s.history
    && s.sources[name].data == Last(s.history[name])
    && (s.history[name] != [] ==>
          exists k :: 0 <= k < |s.callbacks| && s.callbacks[k].name == name
                   && SessionEndsWith(s.callbacks[k], Push(s.sources[name].data, name)))
  }

  ghost predicate Valid(s: State)
  {
    && (forall id :: id in s.live ==> id < |s.callbacks|)
    && (forall name :: name in s.sources ==> Registered(s, name))
    && (forall k, i :: 0 <= k < |s.callbacks| && 0 <= i < |s.callbacks[k].session| ==>
          s.callbacks[k].session[i].event == s.callbacks[k].name)
  }

  /** A live interval that no entry owns: `unregisterDataSource` can never clear it. */
  ghost predicate Orphan(s: State, id: TimerId)
  {
    id in s.live && forall name :: name in s.sources ==> s.sources[name].intervalId != id
  }

  /** A fresh manager: `new Map()`, no timers, no sessions. */
  function Empty(): (s: State)
    ensures Valid(s)
    ensures s.sources == map[] && s.live == {} && s.callbacks == []
  {
    State(map[], [], {}, map[])
  }

  /** `registerDataSource`: a new session and a new interval, then `set(name, {data: null, intervalId})`.
      There is no duplicate check and the interval of a replaced entry is not cleared. */
  function Register(s: State, name: string): (r: State)
    ensures name in r.sources && r.sources[name] == DataSource(Null, |s.callbacks|)
    ensures Valid(s) ==> |s.callbacks| !in s.live
    ensures r.sources.Keys == s.sources.Keys + {name}
    ensures forall n :: n in s.sources && n != name ==> r.sources[n] == s.sources[n]
    ensures r.live == s.live + {|s.callbacks|}
    ensures r.callbacks == s.callbacks + [Callback(name, [])]
    ensures HistoryOf(r, name) == [] && forall n :: n != name ==> HistoryOf(r, n) == HistoryOf(s, n)
  {
    var id := |s.callbacks|;
    State(s.sources[name := DataSource(Null, id)],
          s.callbacks + [Callback(name, [])],
          s.live + {id},
          s.history[name := []])
  }

  /** `unregisterDataSource`: nothing for an unknown name; otherwise `clearInterval` and `delete`. */
  function Unregister(s: State, name: string): (r: State)
    ensures name !in s.sources ==> r == s
    ensures name !in r.sources && r.sources.Keys == s.sources.Keys - {name}
    ensures forall n :: n in r.sources ==> r.sources[n] == s.sources[n]
    ensures name in s.sources ==> r.live == s.live - {s.sources[name].intervalId}
    ensures r.callbacks == s.callbacks && r.history == s.history
  {
    if name !in s.sources then s
    else State(s.sources - {name}, s.callbacks, s.live - {s.sources[name].intervalId}, s.history)
  }

  /** Whether a tick of interval `id` fetching `nextData` writes and pushes:
      the interval is live, the name it looks up is registered, and `diff` reports a change. */
  predicate Updates(s: State, id: TimerId, nextData: Value)
  {
    && id in s.live
    && id < |s.callbacks|
    && s.callbacks[id].name in s.sources
    && !Diff(s.sources[s.callbacks[id].name].data, nextData)
  }

  /** One run of the interval callback of handle `id`, with `nextData` the value `fetcher()` resolved to. */
  function Tick(s: State, id: TimerId, nextData: Value): (r: State)
    ensures !Updates(s, id, nextData) ==> r == s
    ensures r.live == s.live && r.sources.Keys == s.sources.Keys && |r.callbacks| == |s.callbacks|
    ensures forall k :: 0 <= k < |s.callbacks| ==> r.callbacks[k].name == s.callbacks[k].name
    ensures forall n :: n in s.sources ==> r.sources[n].intervalId == s.sources[n].intervalId
    ensures Updates(s, id, nextData) ==>
      var name := s.callbacks[id].name;
      && r.sources[name].data == nextData
      && r.callbacks[id].session == s.callbacks[id].session + [Push(nextData, name)]
      && HistoryOf(r, name) == HistoryOf(s, name) + [nextData]
      && (forall n :: n in s.sources && n != name ==> r.sources[n] == s.sources[n])
      && (forall k :: 0 <= k < |s.callbacks| && k != id ==> r.callbacks[k] == s.callbacks[k])
      && (forall n :: n != name ==> HistoryOf(r, n) == HistoryOf(s, n))
  {
    if id !in s.live || id >= |s.callbacks| then s
    else
      var name := s.callbacks[id].name;
      if name !in s.sources then s
      else
        var target := s.sources[name];
        if Diff(target.data, nextData) then s
        else
          var cb := s.callbacks[id];
          State(s.sources[name := target.(data := nextData)],
                s.callbacks[id := cb.(session := cb.session + [Push(nextData, name)])],
                s.live,
                s.history[name := HistoryOf(s, name) + [nextData]])
  }

  lemma RegisterPreservesValid(s: State, name: string)
    requires Valid(s)
    ensures Valid(Register(s, name))
  {
    var r := Register(s, name);
    forall n | n in r.sources && n != name ensures Registered(r, n) {
      assert Registered(s, n);
      if s.history[n] != [] {
        var k :| 0 <= k < |s.callbacks| && s.callbacks[k].name == n
               && SessionEndsWith(s.callbacks[k], Push(s.sources[n].data, n));
        assert r.callbacks[k] == s.callbacks[k];
      }
    }
  }

  lemma UnregisterPreservesValid(s: State, name: string)
    requires Valid(s)
    ensures Valid(Unregister(s, name))
  {
  }

  lemma TickPreservesValid(s: State, id: TimerId, nextData: Value)
    requires Valid(s)
    ensures Valid(Tick(s, id, nextData))
  {
    var r := Tick(s, id, nextData);
    if Updates(s, id, nextData) {
      var name := s.callbacks[id].name;
      assert SessionEndsWith(r.callbacks[id], Push(nextData, name));
      forall n | n in r.sources && n != name ensures Registered(r, n) {
        assert Registered(s, n);
        if s.history[n] != [] {
          var k :| 0 <= k < |s.callbacks| && s.callbacks[k].name == n
                 && SessionEndsWith(s.callbacks[k], Push(s.sources[n].data, n));
          assert k != id && r.callbacks[k] == s.callbacks[k];
        }
      }
    }
  }

  /** A tick pushes exactly one event to its own session when it updates, none otherwise,
      and no other session grows. */
  lemma TickPushesOnce(s: State, id: TimerId, nextData: Value)
    requires Valid(s)
    ensures var r := Tick(s, id, nextData);
      forall k :: 0 <= k < |s.callbacks| ==>
        |r.callbacks[k].session| == |s.callbacks[k].session| + (if k == id && Updates(s, id, nextData) then 1 else 0)
  {
  }

  /** Repeating a tick with the value just fetched pushes nothing: the tick is idempotent. */
  lemma TickIdempotent(s: State, id: TimerId, nextData: Value)
    ensures Tick(Tick(s, id, nextData), id, nextData) == Tick(s, id, nextData)
  {
  }

  /** Right after an update with `nextData` under a name, a tick with `nextData` of any
      interval that looks up that name, whichever session it belongs to, pushes nothing
      and changes nothing. */
  lemma SameValueNotPushedTwice(s: State, id: TimerId, other: TimerId, nextData: Value)
    requires Valid(s) && Updates(s, id, nextData)
    requires other < |s.callbacks| && s.callbacks[other].name == s.callbacks[id].name
    ensures !Updates(Tick(s, id, nextData), other, nextData)
    ensures Tick(Tick(s, id, nextData), other, nextData) == Tick(s, id, nextData)
  {
  }

  /** Registering a name already present replaces its entry and leaves the previous
      interval running with no entry owning it. */
  lemma RegisterOverwritesWithoutClearing(s: State, name: string)
    requires Valid(s) && name in s.sources
    ensures var previous := s.sources[name].intervalId;
      && Register(s, name).sources[name].intervalId != previous
      && Orphan(Register(s, name), previous)
  {
  }

  /** The orphan interval still fires: once the name is re-registered, a tick of the old
      interval updates the NEW entry and pushes to the OLD session. */
  lemma OrphanStillPushes(s: State, name: string, nextData: Value)
    requires Valid(s) && name in s.sources && nextData != Null
    ensures var previous := s.sources[name].intervalId;
      var r := Register(s, name);
      var t := Tick(r, previous, nextData);
      && t.sources[name] == DataSource(nextData, |s.callbacks|)
      && t.callbacks[previous].session == s.callbacks[previous].session + [Push(nextData, name)]
  {
  }

  /** The cost of an orphan to a client: once the old interval has written a value into the
      new entry, the new interval's tick with that value is suppressed, so the new session
      never receives it. */
  lemma OrphanStarvesNewSession(s: State, name: string, nextData: Value)
    requires Valid(s) && name in s.sources && nextData != Null
    ensures var previous := s.sources[name].intervalId;
      var t := Tick(Register(s, name), previous, nextData);
      && Tick(t, |s.callbacks|, nextData) == t
      && t.callbacks[|s.callbacks|].session == []
  {
  }

  /** Unregistering a name twice is the same as once. */
  lemma UnregisterIdempotent(s: State, name: string)
    ensures Unregister(Unregister(s, name), name) == Unregister(s, name)
  {
  }

  /** Registering a new name and unregistering it restores the entries and the live timers;
      only the (empty) session of that registration remains. */
  lemma RegisterThenUnregister(s: State, name: string)
    requires Valid(s) && name !in s.sources
    ensures var r := Unregister(Register(s, name), name);
      && r.sources == s.sources
      && r.live == s.live
      && r.callbacks == s.callbacks + [Callback(name, [])]
  {
  }

  /** The operations the outside world can perform on a manager. */
  datatype Op =
    | RegisterOp(name: string)
    | UnregisterOp(name: string)
    | TickOp(id: TimerId, nextData: Value)

  function Step(s: State, op: Op): State
  {
    match op
    case RegisterOp(name) => Register(s, name)
    case UnregisterOp(name) => Unregister(s, name)
    case TickOp(id, nextData) => Tick(s, id, nextData)
  }

  function Run(s: State, ops: seq<Op>): State
    decreases |ops|
  {
    if ops == [] then s else Run(Step(s, ops[0]), ops[1..])
  }

  lemma StepPreservesValid(s: State, op: Op)
    requires Valid(s)
    ensures Valid(Step(s, op))
  {
    match op
    case RegisterOp(name) => RegisterPreservesValid(s, name);
    case UnregisterOp(name) => UnregisterPreservesValid(s, name);
    case TickOp(id, nextData) => TickPreservesValid(s, id, nextData);
  }

  lemma {:induction false} RunPreservesValid(s: State, ops: seq<Op>)
    requires Valid(s)
    ensures Valid(Run(s, ops))
    decreases |ops|
  {
    if ops != [] {
      StepPreservesValid(s, ops[0]);
      RunPreservesValid(Step(s, ops[0]), ops[1..]);
    }
  }

  /** No operation shrinks the callback table. */
  lemma StepGrows(s: State, op: Op)
    ensures |Step(s, op).callbacks| >= |s.callbacks|
  {
  }

  /** `clearInterval` is permanent: a handle that was issued and cleared is never live again,
      because registration only adds the next, fresh handle. */
  lemma {:induction false} ClearedStaysCleared(s: State, ops: seq<Op>, id: TimerId)
    requires id < |s.callbacks| && id !in s.live
    ensures id !in Run(s, ops).live
    decreases |ops|
  {
    if ops != [] {
      StepGrows(s, ops[0]);
      ClearedStaysCleared(Step(s, ops[0]), ops[1..], id);
    }
  }

  /** Unregistering stops the entry's interval for good: after any later operations, a tick
      of it does nothing. */
  lemma UnregisterStopsTicks(s: State, name: string, ops: seq<Op>, nextData: Value)
    requires Valid(s) && name in s.sources
    ensures var u := Run(Unregister(s, name), ops);
      Tick(u, s.sources[name].intervalId, nextData) == u
  {
    ClearedStaysCleared(Unregister(s, name), ops, s.sources[name].intervalId);
  }

  /** After any sequence of operations on a fresh manager, the data cached for a registered
      name is the last value pushed under it since it was last registered, or `null`; once
      something was pushed, it is the last event some session of that name received. */
  lemma CacheIsLastPush(ops: seq<Op>, name: string)
    ensures var s := Run(Empty(), ops);
      name in s.sources ==> s.sources[name].data == Last(HistoryOf(s, name))
    ensures var s := Run(Empty(), ops);
      name in s.sources && HistoryOf(s, name) != [] ==>
        exists k :: 0 <= k < |s.callbacks| && s.callbacks[k].name == name
                 && SessionEndsWith(s.callbacks[k], Push(s.sources[name].data, name))
  {
    RunPreservesValid(Empty(), ops);
    var s := Run(Empty(), ops);
    if name in s.sources {
      assert Registered(s, name);
    }
  }

  lemma StepPreservesOrphan(s: State, op: Op, id: TimerId)
    requires Valid(s) && Orphan(s, id)
    ensures Orphan(Step(s, op), id)
  {
  }

  /** An orphan interval is never cleared again, whatever operations follow. */
  lemma {:induction false} OrphanPersists(s: State, ops: seq<Op>, id: TimerId)
    requires Valid(s) && Orphan(s, id)
    ensures Orphan(Run(s, ops), id) && id in Run(s, ops).live
    decreases |ops|
  {
    if ops != [] {
      StepPreservesOrphan(s, ops[0], id);
      StepPreservesValid(s, ops[0]);
      OrphanPersists(Step(s, ops[0]), ops[1..], id);
    }
  }
}

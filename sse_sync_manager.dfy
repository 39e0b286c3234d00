/**
 * `SseSyncManager` of packages/core/src/index.ts: the same registry as
 * `SyncManager`, whose interval callback asks `diff` (packages/core/src/utils.ts)
 * whether the fetched value equals the cached one.
 */
module CoreSseSyncManager {
  import opened Values
  import Registry

  class SseSyncManager {
    var registeredDataSource: map<string, Registry.DataSource>
    var live: set<Registry.TimerId>
    var callbacks: seq<Registry.Callback>
    ghost var history: map<string, seq<Value>>

    ghost function Model(): Registry.State
      reads this
    {
      Registry.State(registeredDataSource, callbacks, live, history)
    }

    ghost predicate Valid()
      reads this
    {
      Registry.Valid(Model())
    }

    constructor ()
      ensures Valid() && Model() == Registry.Empty()
    {
      registeredDataSource := map[];
      live := {};
      callbacks := [];
      history := map[];
    }

    /** `registerDataSource({name, fetcher, intervalMs, ctx})`. */
    method RegisterDataSource(name: string)
      requires Valid()
      modifies this
      ensures Valid()
      ensures Model() == Registry.Register(old(Model()), name)
    {
      Registry.RegisterPreservesValid(Model(), name);
      // createSession(ctx.req, ctx.res) and setInterval(callback, intervalMs)
      var intervalId := |callbacks|;
      callbacks := callbacks + [Registry.Callback(name, [])];
      live := live + {intervalId};
      registeredDataSource := registeredDataSource[name := Registry.DataSource(Null, intervalId)];
      history := history[name := []];
    }

    method UnregisterDataSource(name: string)
      requires Valid()
      modifies this
      ensures Valid()
      ensures Model() == Registry.Unregister(old(Model()), name)
    {
      Registry.UnregisterPreservesValid(Model(), name);
      if name !in registeredDataSource {
        return;
      }
      var targetDataSource := registeredDataSource[name];
      live := live - {targetDataSource.intervalId};  // clearInterval(targetDataSource.intervalId)
      registeredDataSource := registeredDataSource - {name};
    }

    /** The interval callback of handle `intervalId`, with `nextData` the fetched value. */
    method Tick(intervalId: Registry.TimerId, nextData: Value)
      requires Valid()
      modifies this
      ensures Valid()
      ensures Model() == Registry.Tick(old(Model()), intervalId, nextData)
    {
      Registry.TickPreservesValid(Model(), intervalId, nextData);
      if intervalId !in live {
        return;
      }
      var name := callbacks[intervalId].name;
      if name !in registeredDataSource {
        return;
      }
      var targetDataSource := registeredDataSource[name];
      var shouldUpdate := !Diff(targetDataSource.data, nextData);
      if shouldUpdate {
        registeredDataSource := registeredDataSource[name := targetDataSource.(data := nextData)];
        history := history[name := Registry.HistoryOf(Model(), name) + [nextData]];
        var callback := callbacks[intervalId];
        callbacks := callbacks[intervalId := callback.(session := callback.session + [Registry.Push(nextData, name)])];
      }
    }
  }

  /** A client that registers one name twice: unregistering clears only the second
      interval, and the first stays live. */
  method DuplicateRegistrationLeaks()
  {
    var m := new SseSyncManager();
    m.RegisterDataSource("stocks");
    m.RegisterDataSource("stocks");
    assert m.registeredDataSource["stocks"] == Registry.DataSource(Null, 1);
    m.UnregisterDataSource("stocks");
    assert m.live == {0};
  }

  /** The first interval of a name registered twice updates the second entry and pushes
      to the first session. */
  method OrphanIntervalPushes()
  {
    var m := new SseSyncManager();
    m.RegisterDataSource("stocks");
    m.RegisterDataSource("stocks");
    m.Tick(0, Num(7));
    assert m.callbacks[0].session == [Registry.Push(Num(7), "stocks")];
    assert m.callbacks[1].session == [];
    assert m.registeredDataSource["stocks"] == Registry.DataSource(Num(7), 1);
  }
}

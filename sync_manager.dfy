/**
 * `SyncManager` of packages/core/src/sync-manager.ts. Its fields are those of
 * the source object (`registeredDataSource`), plus stand-ins for what the
 * source keeps outside it: the timer table (`live`) and the interval
 * callbacks together with the sessions they push to (`callbacks`).
 */
module CoreSyncManager {
  import opened Values
  import Registry

  class SyncManager {
    var registeredDataSource: map<string, Registry.DataSource>
    var live: set<Registry.TimerId>
    var callbacks: seq<Registry.Callback>
    ghost var history: map<string, seq<Value>>

    ghost function Model(): Registry.State
      reads this
    {
      Registry.State(registeredDataSource, callbacks, live, history)
    }

    ghost predicate Valid()
      reads this
    {
      Registry.Valid(Model())
    }

    constructor ()
      ensures Valid() && Model() == Registry.Empty()
    {
      registeredDataSource := map[];
      live := {};
      callbacks := [];
      history := map[];
    }

    /** `registerDataSource({name, fetcher, syncIntervalMs, req, res})`; the fetcher and the
        interval length only matter to `Tick`, which receives the fetched value. */
    method RegisterDataSource(name: string)
      requires Valid()
      modifies this
      ensures Valid()
      ensures Model() == Registry.Register(old(Model()), name)
    {
      Registry.RegisterPreservesValid(Model(), name);
      // createSession(req, res) and setInterval(callback, syncIntervalMs)
      var intervalId := |callbacks|;
      callbacks := callbacks + [Registry.Callback(name, [])];
      live := live + {intervalId};
      registeredDataSource := registeredDataSource[name := Registry.DataSource(Null, intervalId)];
      history := history[name := []];
    }

    method UnregisterDataSource(name: string)
      requires Valid()
      modifies this
      ensures Valid()
      ensures Model() == Registry.Unregister(old(Model()), name)
    {
      Registry.UnregisterPreservesValid(Model(), name);
      if name !in registeredDataSource {
        return;
      }
      var targetDataSource := registeredDataSource[name];
      live := live - {targetDataSource.intervalId};  // clearInterval(targetDataSource.syncIntervalId)
      registeredDataSource := registeredDataSource - {name};
    }

    /** The interval callback of handle `intervalId`, run to completion, where `nextData` is
        what `await fetcher()` resolved to. A cleared interval does not fire. */
    method Tick(intervalId: Registry.TimerId, nextData: Value)
      requires Valid()
      modifies this
      ensures Valid()
      ensures Model() == Registry.Tick(old(Model()), intervalId, nextData)
    {
      Registry.TickPreservesValid(Model(), intervalId, nextData);
      if intervalId !in live {
        return;
      }
      var name := callbacks[intervalId].name;
      if name !in registeredDataSource {
        return;
      }
      var targetDataSource := registeredDataSource[name];
      var shouldUpdate := !IsEqual(targetDataSource.data, nextData);
      if shouldUpdate {
        registeredDataSource := registeredDataSource[name := targetDataSource.(data := nextData)];
        history := history[name := Registry.HistoryOf(Model(), name) + [nextData]];
        var callback := callbacks[intervalId];
        callbacks := callbacks[intervalId := callback.(session := callback.session + [Registry.Push(nextData, name)])];
      }
    }
  }

  /** A client: the first tick pushes over the initial `null`, a repeated value is
      suppressed, and a change is pushed with the whole new value. */
  method PriceTicks()
  {
    var m := new SyncManager();
    var one := Obj(map["price" := Num(1)]);
    var two := Obj(map["price" := Num(2)]);
    m.RegisterDataSource("price");
    m.Tick(0, one);
    assert m.callbacks[0].session == [Registry.Push(one, "price")];
    m.Tick(0, one);
    assert m.callbacks[0].session == [Registry.Push(one, "price")];
    m.Tick(0, two);
    assert m.callbacks[0].session == [Registry.Push(one, "price"), Registry.Push(two, "price")];
    assert m.registeredDataSource["price"].data == two;
    m.UnregisterDataSource("price");
    m.Tick(0, one);
    assert m.callbacks[0].session == [Registry.Push(one, "price"), Registry.Push(two, "price")];
  }
}

/**
 * The registry contract of the server package's `SyncManager`, as its test file
 * packages/server/src/sync-manager.spec.ts pins it down: the constructor and
 * `registerSyncSource` take one spec or an array of specs, a name already
 * present is refused with an error, `unregisterSyncSource` ignores unknown
 * names, and `syncSource.size` counts the entries. The server implementation
 * is not modelled, only what its test file asserts; a batch is taken item by
 * item, and a refused item stops the batch while keeping the items registered
 * before it.
 */
module ServerSyncManager {
  import opened Wrappers

  /** A source spec; its `fetcher` is left out, as no operation here calls it. */
  datatype SyncSourceSpec = SyncSourceSpec(name: string, syncIntervalMs: nat)

  /** The `spec | spec[]` argument of the constructor and of `registerSyncSource`. */
  datatype SpecArg = One(spec: SyncSourceSpec) | Many(specs: seq<SyncSourceSpec>)

  function Specs(arg: SpecArg): seq<SyncSourceSpec>
  {
    match arg
    case One(spec) => [spec]
    case Many(specs) => specs
  }

  /** A registered source: no data fetched yet and not watched. */
  datatype SyncSource = SyncSource(syncIntervalMs: nat)

  datatype RegistryError = DuplicateName(name: string)

  type SourceMap = map<string, SyncSource>

  /** The names of a batch differ from each other and from those in `keys`. */
  ghost predicate NamesFresh(keys: set<string>, specs: seq<SyncSourceSpec>)
  {
    && (forall i :: 0 <= i < |specs| ==> specs[i].name !in keys)
    && (forall i, j :: 0 <= i < j < |specs| ==> specs[i].name != specs[j].name)
  }

  ghost function NameSet(specs: seq<SyncSourceSpec>): set<string>
    decreases |specs|
  {
    if specs == [] then {} else {specs[0].name} + NameSet(specs[1..])
  }

  /** Registering one spec: refused when the name is present, otherwise one more entry. */
  function RegisterOne(reg: SourceMap, spec: SyncSourceSpec): (r: Result<SourceMap, RegistryError>)
    ensures r.Failure? <==> spec.name in reg
    ensures r.Failure? ==> r.error == DuplicateName(spec.name)
    ensures r.Success? ==>
      && r.value.Keys == reg.Keys + {spec.name}
      && |r.value| == |reg| + 1
      && r.value[spec.name] == SyncSource(spec.syncIntervalMs)
      && (forall n :: n in reg ==> r.value[n] == reg[n])
  {
    if spec.name in reg then Failure(DuplicateName(spec.name))
    else Success(reg[spec.name := SyncSource(spec.syncIntervalMs)])
  }

  /** The registry after a batch, and the error that stopped it, if any. */
  datatype Registration = Registration(registry: SourceMap, error: Option<RegistryError>)

  function RegisterAll(reg: SourceMap, specs: seq<SyncSourceSpec>): (r: Registration)
    ensures reg.Keys <= r.registry.Keys <= reg.Keys + NameSet(specs)
    ensures forall n :: n in reg ==> r.registry[n] == reg[n]
    ensures r.error.None? ==> r.registry.Keys == reg.Keys + NameSet(specs)
    ensures r.error.None? ==> |r.registry| == |reg| + |specs|
    ensures r.error.Some? ==> r.error.value.name in reg.Keys + NameSet(specs)
    decreases |specs|
  {
    if specs == [] then Registration(reg, None)
    else
      match RegisterOne(reg, specs[0])
      case Failure(e) => Registration(reg, Some(e))
      case Success(next) => RegisterAll(next, specs[1..])
  }

  /** Freshness of a non-empty batch is freshness of its head, then of its tail against the grown key set. */
  lemma NamesFreshCons(keys: set<string>, specs: seq<SyncSourceSpec>)
    requires specs != []
    ensures NamesFresh(keys, specs) <==>
      specs[0].name !in keys && NamesFresh(keys + {specs[0].name}, specs[1..])
  {
  }

  /** A batch is refused exactly when one of its names is already present or repeats an
      earlier name of the batch; the error names such a name, which is then registered. */
  lemma {:induction false} RegisterAllFailsIffDuplicate(reg: SourceMap, specs: seq<SyncSourceSpec>)
    ensures RegisterAll(reg, specs).error.None? <==> NamesFresh(reg.Keys, specs)
    ensures var r := RegisterAll(reg, specs);
      r.error.Some? ==> r.error.value.DuplicateName? && r.error.value.name in r.registry
    decreases |specs|
  {
    if specs != [] {
      NamesFreshCons(reg.Keys, specs);
      var head := specs[0];
      if head.name !in reg {
        var next := reg[head.name := SyncSource(head.syncIntervalMs)];
        assert next.Keys == reg.Keys + {head.name};
        RegisterAllFailsIffDuplicate(next, specs[1..]);
      }
    }
  }

  /** `unregisterSyncSource`: nothing for an unknown name, otherwise one entry fewer. */
  function Unregister(reg: SourceMap, name: string): (r: SourceMap)
    ensures name !in reg ==> r == reg
    ensures name in reg ==> |r| == |reg| - 1
    ensures r.Keys == reg.Keys - {name}
    ensures forall n :: n in r ==> r[n] == reg[n]
  {
    reg - {name}
  }

  /** The first test: a manager built from one spec has one source. */
  lemma ConstructOne(spec: SyncSourceSpec)
    ensures RegisterAll(map[], Specs(One(spec))) == Registration(map[spec.name := SyncSource(spec.syncIntervalMs)], None)
  {
  }

  /** The second and third tests: two specs with distinct names give two sources. */
  lemma RegisterTwo(a: SyncSourceSpec, b: SyncSourceSpec)
    requires a.name != b.name
    ensures var r := RegisterAll(map[], Specs(Many([a, b])));
      r.error.None? && |r.registry| == 2
  {
    RegisterAllFailsIffDuplicate(map[], [a, b]);
  }

  /** The fourth test: registering a name that is present is refused and changes nothing. */
  lemma RegisterDuplicateRefused(reg: SourceMap, spec: SyncSourceSpec)
    requires spec.name in reg
    ensures RegisterAll(reg, Specs(One(spec))) == Registration(reg, Some(DuplicateName(spec.name)))
  {
  }

  class SyncManager {
    var syncSource: SourceMap

    /** `new SyncManager()`. */
    constructor ()
      ensures syncSource == map[]
    {
      syncSource := map[];
    }

    /** `registerSyncSource(spec | spec[])`, throwing on the first duplicate name. */
    method RegisterSyncSource(arg: SpecArg) returns (outcome: Outcome<RegistryError>)
      modifies this
      ensures var r := RegisterAll(old(syncSource), Specs(arg));
        && syncSource == r.registry
        && (outcome.Fail? <==> r.error.Some?)
        && (outcome.Fail? ==> outcome.error == r.error.value)
    {
      var specs := Specs(arg);
      var i := 0;
      while i < |specs|
        invariant 0 <= i <= |specs|
        invariant RegisterAll(old(syncSource), specs) == RegisterAll(syncSource, specs[i..])
      {
        assert specs[i..][1..] == specs[i + 1..];
        match RegisterOne(syncSource, specs[i])
        case Failure(e) =>
          return Fail(e);
        case Success(next) =>
          syncSource := next;
        i := i + 1;
      }
      return Pass;
    }

    /** `unregisterSyncSource(name)`. */
    method UnregisterSyncSource(name: string)
      modifies this
      ensures syncSource == Unregister(old(syncSource), name)
    {
      if name in syncSource {
        syncSource := syncSource - {name};
      }
    }
  }

  /** `new SyncManager(spec | spec[])`: the constructor throws when the batch is refused. */
  method New(arg: SpecArg) returns (result: Result<SyncManager, RegistryError>)
    ensures result.Failure? <==> RegisterAll(map[], Specs(arg)).error.Some?
    ensures result.Success? ==> fresh(result.value) && result.value.syncSource == RegisterAll(map[], Specs(arg)).registry
    ensures result.Failure? ==> Some(result.error) == RegisterAll(map[], Specs(arg)).error
  {
    var manager := new SyncManager();
    var outcome := manager.RegisterSyncSource(arg);
    match outcome
    case Pass => return Success(manager);
    case Fail(e) => return Failure(e);
  }

  /** "Sync source should be added when creating an instance". */
  method TestAddedOnCreation() returns (size: nat)
    ensures size == 1
  {
    var created := New(One(SyncSourceSpec("test1", 2000)));
    assert created.Success?;
    size := |created.value.syncSource|;
  }

  /** "Multiple sync sources should be added when creating an instance". */
  method TestManyAddedOnCreation() returns (size: nat)
    ensures size == 2
  {
    var test1, test2 := SyncSourceSpec("test1", 2000), SyncSourceSpec("test2", 3000);
    RegisterTwo(test1, test2);
    var created := New(Many([test1, test2]));
    assert created.Success?;
    size := |created.value.syncSource|;
  }

  /** "Sync source should be added by registerSyncSource method". */
  method TestAddedByRegister() returns (before: nat, after: nat)
    ensures before == 0 && after == 2
  {
    var test1, test2 := SyncSourceSpec("test1", 2000), SyncSourceSpec("test2", 3000);
    RegisterTwo(test1, test2);
    var manager := new SyncManager();
    before := |manager.syncSource|;
    var outcome := manager.RegisterSyncSource(Many([test1, test2]));
    after := |manager.syncSource|;
  }

  /** "Sync source should throw error if name is duplicated". */
  method TestDuplicateThrows() returns (size: nat, threw: bool)
    ensures size == 1 && threw
  {
    var test1 := SyncSourceSpec("test1", 2000);
    var created := New(One(test1));
    assert created.Success?;
    var manager := created.value;
    size := |manager.syncSource|;
    var outcome := manager.RegisterSyncSource(One(test1));
    threw := outcome.Fail?;
  }

  /** "Sync source should be removed by name". */
  method TestRemovedByName() returns (size: nat)
    ensures size == 1
  {
    var test1, test2 := SyncSourceSpec("test1", 2000), SyncSourceSpec("test2", 3000);
    RegisterTwo(test1, test2);
    var created := New(Many([test1, test2]));
    assert created.Success?;
    var manager := created.value;
    manager.UnregisterSyncSource("test999");
    manager.UnregisterSyncSource("test2");
    size := |manager.syncSource|;
  }
}

/** Inputs on which connecting a device leaves cached levels over or out, from a store that runs reach. */
module LogstorageStale {
  import opened Ids
  import opened Sorting
  import opened Registry
  import opened RegistryHandles
  import opened RegistryRuns
  import opened RegistrySample
  import opened LogstorageKeys
  import opened Logstorage
  import opened LogstorageLevels
  import opened LogstorageSearch
  import opened LogstorageRuns

  /** One filter for the application P. */
  function OneFilter(level: int): Device {
    [Filter([Key([], [80], [])], level, true)]
  }

  /** One device that is not connected. */
  function Nothing(): seq<Device> {
    [[]]
  }

  /** An application registers, then one of its contexts. */
  const REGISTRATIONS: seq<Event> := [
    Registry(RegisterApp(P, 1, [], 5, true)),
    Registry(RegisterCtx(P, Q, 4, 0, 0, []))]

  function Empty(): Store {
    Store(Tables([], []), [[]], {})
  }

  function TheContext(): Context {
    Context(P, Q, 4, 0, 0, 5, [], -1, false)
  }

  function OneContext(): Store {
    Store(OneCtx([]).(ctxs := [TheContext()]), [[]], {})
  }

  lemma {:induction false} FirstRegistration(ecu: seq<Byte>, loaded: bool)
    ensures Step(Empty(), ecu, loaded, REGISTRATIONS[0]) == Empty().(t := OneApp([]))
  {
    AppRegistered([]);
    hide AddApp;
  }

  /** Without devices no level is asked for. */
  lemma {:induction false} NoLevel(ecu: seq<Byte>, apid: seq<Byte>, ctid: seq<Byte>)
    ensures GetLevel(Nothing(), ecu, apid, ctid, -1) == -1
  {
    hide Tried;
    assert |Nothing()[1..]| == 0;
    assert GetConfig([], ecu, apid, ctid) == [];
  }

  lemma {:induction false} CanRegister()
    ensures CanAddCtx(OneApp([]), P, Q, 4, 0)
    ensures FindCtx(OneCtx([]).ctxs, P, Q) == 0
    ensures StoreLevel(OneCtx([]).ctxs, 0, -1) == [TheContext()]
  {
  }

  lemma {:induction false} SecondRegistration(ecu: seq<Byte>, loaded: bool)
    ensures Step(Empty().(t := OneApp([])), ecu, loaded, REGISTRATIONS[1]) == OneContext()
  {
    CtxRegistered([], loaded);
    CanRegister();
    NoLevel(ecu, Str(P), Str(Q));
    assert FindApp(OneApp([]).apps, P) == 0;
    hide AddCtx, CanAddCtx, FindCtx, FindApp, GetLevel, Str, StoreLevel;
  }

  /** The store with one registered context is reached from the empty one. */
  lemma {:induction false} StoreReached(ecu: seq<Byte>, loaded: bool)
    ensures Run(Empty(), ecu, loaded, REGISTRATIONS) == OneContext()
    ensures Good(OneContext(), ecu)
  {
    FirstRegistration(ecu, loaded);
    SecondRegistration(ecu, loaded);
    hide Step, OneContext, TheContext;
    var es := REGISTRATIONS;
    var a := Step(Empty(), ecu, loaded, es[0]);
    assert es[1..] == [es[1]] && [es[1]][1..] == [];
    assert Run(Step(a, ecu, loaded, es[1]), ecu, loaded, []) == OneContext();
    assert Run(a, ecu, loaded, es[1..]) == OneContext();
    OneContextGood(ecu);
  }

  lemma {:induction false} OneContextGood(ecu: seq<Byte>)
    ensures Good(OneContext(), ecu)
  {
    var s := OneContext();
    NoFilterHits(ecu, TheContext());
    assert |Nothing()[1..]| == 0;
    assert UnionLevel([[]], ecu, TheContext()) == -1;
    assert Apids(s.t.apps) == {P} by {
      assert s.t.apps[0].apid == P;
    }
    assert CountOf(s.t.ctxs[1..], P) == 0;
  }

  lemma {:induction false} OneFilterLevel(level: int, ecu: seq<Byte>)
    requires 1 <= level <= LOG_VERBOSE
    ensures DeviceOk(OneFilter(level)) && LevelOf(OneFilter(level), ecu, TheContext()) == level
  {
    var dev, c := OneFilter(level), TheContext();
    assert Str(P) == [80];
    assert Covers(dev[0].keys[0], ecu, c);
    assert dev[1..] == [];
    assert HitFilters(dev, ecu, c) == [dev[0]] + [];
    assert MaxLevel([dev[0]][1..]) == -1;
  }

  lemma {:induction false} NobodyElse(ecu: seq<Byte>, c: Context, dev: Device)
    ensures UnionLevel([dev][0 := []], ecu, c) == -1
  {
    NoFilterHits(ecu, c);
    assert [dev][0 := []] == [[]];
    assert |Nothing()[1..]| == 0;
  }

  /** After the device was connected. */
  lemma {:induction false} ConnectedOnce(level: int, ecu: seq<Byte>, loaded: bool)
    requires 1 <= level <= LOG_VERBOSE
    ensures var s := Step(OneContext(), ecu, loaded, Connected(0, OneFilter(level), Loaded));
      && Good(s, ecu)
      && s.devs == [OneFilter(level)]
      && s.t.ctxs == [TheContext().(storage := level)]
  {
    var s, dev := OneContext(), OneFilter(level);
    OneContextGood(ecu);
    OneFilterLevel(level, ecu);
    UnusedDeviceHarmless(s.devs, 0, dev, Loaded, ecu, TheContext());
    hide Good, DeviceOk, LevelOf, Harmless, Step, OneFilter;
    ConnectedIff(s, ecu, loaded, 0, dev, Loaded);
    ConnectedAt(s, ecu, loaded, 0, dev, Loaded, 0);
    DevicesAfter(s, ecu, loaded, dev);
  }

  lemma {:induction false} DevicesAfter(s: Store, ecu: seq<Byte>, loaded: bool, dev: Device)
    requires |s.devs| == 1
    ensures Step(s, ecu, loaded, Connected(0, dev, Loaded)).devs == [dev]
  {
  }

  /** A device that is connected a second time, now with a lower level, leaves the higher one behind. */
  lemma {:induction false} StaleLevel(high: int, low: int, ecu: seq<Byte>, loaded: bool)
    requires 1 <= low < high <= LOG_VERBOSE
    ensures var s := Run(Empty(), ecu, loaded, REGISTRATIONS);
      var u := Step(s, ecu, loaded, Connected(0, OneFilter(high), Loaded));
      var v := Step(u, ecu, loaded, Connected(0, OneFilter(low), Loaded));
      && Good(u, ecu) && !Good(v, ecu)
      && |v.t.ctxs| == 1 && v.t.ctxs[0].storage == high && UnionLevel(v.devs, ecu, v.t.ctxs[0]) == low
  {
    StoreReached(ecu, loaded);
    ConnectedOnce(high, ecu, loaded);
    OneFilterLevel(low, ecu);
    OneFilterLevel(high, ecu);
    var u := Step(OneContext(), ecu, loaded, Connected(0, OneFilter(high), Loaded));
    var c := u.t.ctxs[0];
    DevicesAfter(u, ecu, loaded, OneFilter(low));
    SameLevelOf(low, ecu, high);
    SameLevelOf(high, ecu, high);
    NobodyElse(ecu, c, OneFilter(high));
    assert u.devs[0 := []] == [OneFilter(high)][0 := []];
    hide Good, Step, OneFilter, DeviceOk, LevelOf, UnionLevel, Run, Empty, TheContext, OneContext;
    ConnectedAt(u, ecu, loaded, 0, OneFilter(low), Loaded, 0);
    ConnectedIff(u, ecu, loaded, 0, OneFilter(low), Loaded);
    var v := Step(u, ecu, loaded, Connected(0, OneFilter(low), Loaded));
    OnlyDevice(OneFilter(low), ecu, v.t.ctxs[0], c);
  }

  lemma {:induction false} SameLevelOf(level: int, ecu: seq<Byte>, storage: int)
    requires 1 <= level <= LOG_VERBOSE
    ensures LevelOf(OneFilter(level), ecu, TheContext().(storage := storage)) == level
  {
    OneFilterLevel(level, ecu);
    HitFiltersById(OneFilter(level), ecu, TheContext(), TheContext().(storage := storage));
  }

  lemma {:induction false} OnlyDevice(dev: Device, ecu: seq<Byte>, c: Context, d: Context)
    requires c.apid == d.apid && c.ctid == d.ctid
    ensures UnionLevel([dev], ecu, c) == LevelOf(dev, ecu, d)
  {
    HitFiltersById(dev, ecu, c, d);
    assert [dev][1..] == [];
  }

  /** A device whose configuration gives a warning counts as configured, but the levels are not raised. */
  lemma {:induction false} MissingLevel(level: int, ecu: seq<Byte>, loaded: bool)
    requires 1 <= level <= LOG_VERBOSE
    ensures var s := Run(Empty(), ecu, loaded, REGISTRATIONS);
      var v := Step(s, ecu, loaded, Connected(0, OneFilter(level), Warned));
      && Good(s, ecu) && !Good(v, ecu)
      && v.t.ctxs == [TheContext()] && TheContext().storage == -1 && UnionLevel(v.devs, ecu, v.t.ctxs[0]) == level
  {
    StoreReached(ecu, loaded);
    OneFilterLevel(level, ecu);
    var s, c := OneContext(), TheContext();
    var v := Step(s, ecu, loaded, Connected(0, OneFilter(level), Warned));
    assert v.devs == [OneFilter(level)] && v.t == s.t;
    assert v.t.ctxs[0] == c;
    OnlyDevice(OneFilter(level), ecu, c, c);
    hide Run, Step, UnionLevel, LevelOf, OneFilter, Indexed, Owned, DevicesOk, OthersEmpty;
    assert !Right(c, v.devs, ecu);
  }
}

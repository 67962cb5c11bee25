/** Runs of device connections and registrations: the cached level of every registered context is the level
    that all connected devices together ask for. */
module LogstorageRuns {
  import opened Ids
  import opened Sorting
  import opened Registry
  import opened RegistryIndex
  import opened RegistryHandles
  import opened RegistryRuns
  import opened RegistryLookup
  import opened AppLevels
  import opened LevelScan
  import opened LogstorageKeys
  import opened Logstorage
  import opened LogstorageLevels
  import opened LogstorageSearch

  /** `ready` are the devices that are connected and configured; the others have no filters. */
  datatype Store = Store(t: Tables, devs: seq<Device>, ready: set<nat>)

  /** How reading the configuration of a device ended: well, with a warning, or not at all. */
  datatype Load = Loaded | Warned | NotLoaded

  datatype Event =
    | Registry(op: Op)
    | Connected(d: nat, filters: Device, load: Load)
    | Disconnected(d: nat)

  function StoreLevel(ctxs: seq<Context>, k: nat, level: int): seq<Context>
    requires k < |ctxs|
  {
    ctxs[k := ctxs[k].(storage := level)]
  }

  /** A context that was registered gets its level from the devices; a device that was connected raises
      levels, unless reading its configuration gave a warning; before a device is disconnected levels are
      reset. A device that is connected twice loses its filters without a reset. */
  function Step(s: Store, ecu: seq<Byte>, loaded: bool, ev: Event): Store {
    match ev
    case Registry(op) =>
      var u := Apply(s.t, loaded, op);
      if op.RegisterCtx? && CanAddCtx(s.t, op.apid, op.ctid, op.level, op.status) then
        var k := FindCtx(u.ctxs, op.apid, op.ctid);
        if k < |u.ctxs| then
          s.(t := u.(ctxs := StoreLevel(u.ctxs, k, GetLevel(s.devs, ecu, Str(op.apid), Str(op.ctid), -1))))
        else s.(t := u)
      else
        s.(t := u)
    case Connected(d, filters, load) =>
      if d >= |s.devs| then s
      else if load.Loaded? then
        Store(s.t.(ctxs := UpdateDevice(s.t.ctxs, ecu, filters)), s.devs[d := filters], s.ready + {d})
      else if load.Warned? then s.(devs := s.devs[d := filters], ready := s.ready + {d})
      else s.(devs := s.devs[d := []], ready := s.ready - {d})
    case Disconnected(d) =>
      if d >= |s.devs| then s
      else Store(s.t.(ctxs := ResetDevice(s.t.ctxs, ecu, s.devs, d, d in s.ready)), s.devs[d := []], s.ready - {d})
  }

  // ---- the invariant

  /** A context that an application registered has the level of the simple definition. */
  predicate Right(c: Context, devs: seq<Device>, ecu: seq<Byte>) {
    c.storage >= -1 && (!c.predefined ==> c.storage == UnionLevel(devs, ecu, c))
  }

  predicate AllRight(ctxs: seq<Context>, devs: seq<Device>, ecu: seq<Byte>) {
    forall k :: 0 <= k < |ctxs| ==> Right(ctxs[k], devs, ecu)
  }

  ghost predicate Good(s: Store, ecu: seq<Byte>) {
    Indexed(s.t) && Owned(s.t) && DevicesOk(s.devs) && OthersEmpty(s) && AllRight(s.t.ctxs, s.devs, ecu)
  }

  predicate OthersEmpty(s: Store) {
    forall d :: 0 <= d < |s.devs| && d !in s.ready ==> s.devs[d] == []
  }

  // ---- the simple definition

  /** It does not depend on the order of the devices. */
  lemma {:induction false} UnionOrder(a: seq<Device>, b: seq<Device>, ecu: seq<Byte>, c: Context)
    requires forall d :: d in a <==> d in b
    ensures UnionLevel(a, ecu, c) == UnionLevel(b, ecu, c)
  {
    UnionAtMost(a, b, ecu, c);
    UnionAtMost(b, a, ecu, c);
  }

  lemma {:induction false} UnionAtMost(a: seq<Device>, b: seq<Device>, ecu: seq<Byte>, c: Context)
    requires forall d :: d in a ==> d in b
    ensures UnionLevel(a, ecu, c) <= UnionLevel(b, ecu, c)
  {
    UnionBounds(a, ecu, c);
    UnionBounds(b, ecu, c);
    hide MaxLevel, HitFilters, UnionLevel;
    if UnionLevel(a, ecu, c) != -1 {
      var i :| 0 <= i < |a| && MaxLevel(HitFilters(a[i], ecu, c)) == UnionLevel(a, ecu, c);
      assert a[i] in b;
    }
  }

  /** One device replaced: what the others ask for, and the new one. */
  lemma {:induction false} UnionReplaced(devs: seq<Device>, d: nat, dev: Device, ecu: seq<Byte>, c: Context)
    requires d < |devs|
    ensures UnionLevel(devs[d := dev], ecu, c) == Max(UnionLevel(devs[d := []], ecu, c), MaxLevel(HitFilters(dev, ecu, c)))
  {
    hide MaxLevel, HitFilters;
    NoFilterHits(ecu, c);
    if d == 0 {
      assert devs[0 := dev][1..] == devs[1..] == devs[0 := []][1..];
    } else {
      UnionReplaced(devs[1..], d - 1, dev, ecu, c);
      assert devs[d := dev][1..] == devs[1..][d - 1 := dev];
      assert devs[d := []][1..] == devs[1..][d - 1 := []];
    }
  }

  /** What the device at d asks for, and the others. */
  lemma {:induction false} UnionParts(devs: seq<Device>, d: nat, ecu: seq<Byte>, c: Context)
    requires d < |devs|
    ensures UnionLevel(devs, ecu, c) == Max(UnionLevel(devs[d := []], ecu, c), MaxLevel(HitFilters(devs[d], ecu, c)))
  {
    hide *;
    UnionReplaced(devs, d, devs[d], ecu, c);
    assert devs[d := devs[d]] == devs;
  }

  lemma {:induction false} NoFilterHits(ecu: seq<Byte>, c: Context)
    ensures MaxLevel(HitFilters([], ecu, c)) == -1
  {
  }

  lemma {:induction false} UnionById(devs: seq<Device>, ecu: seq<Byte>, c: Context, d: Context)
    requires c.apid == d.apid && c.ctid == d.ctid
    ensures UnionLevel(devs, ecu, c) == UnionLevel(devs, ecu, d)
  {
    hide MaxLevel;
    if devs != [] {
      HitFiltersById(devs[0], ecu, c, d);
      UnionById(devs[1..], ecu, c, d);
    }
  }

  lemma {:induction false} HitFiltersById(dev: Device, ecu: seq<Byte>, c: Context, d: Context)
    requires c.apid == d.apid && c.ctid == d.ctid
    ensures HitFilters(dev, ecu, c) == HitFilters(dev, ecu, d)
  {
    if dev != [] {
      HitFiltersById(dev[1..], ecu, c, d);
      assert forall key :: Covers(key, ecu, c) == Covers(key, ecu, d);
    }
  }

  // ---- registrations

  predicate SameLevel(a: Context, b: Context) {
    a.apid == b.apid && a.ctid == b.ctid && a.storage == b.storage && a.predefined == b.predefined
  }

  /** Every context of b was loaded from a file, or has the level it had in a. */
  predicate Derived(a: seq<Context>, b: seq<Context>) {
    forall k :: 0 <= k < |b| ==>
      if b[k].predefined then b[k].storage >= -1 else exists j :: 0 <= j < |a| && SameLevel(a[j], b[k])
  }

  predicate StorageOk(ctxs: seq<Context>) {
    forall k :: 0 <= k < |ctxs| ==> ctxs[k].storage >= -1
  }

  lemma {:induction false} SameDerived(a: seq<Context>, b: seq<Context>)
    requires StorageOk(a) && |a| == |b| && forall k :: 0 <= k < |a| ==> SameLevel(a[k], b[k])
    ensures Derived(a, b)
  {
  }

  lemma {:induction false} RemovedDerived(a: seq<Context>, k: nat)
    requires StorageOk(a) && k < |a|
    ensures Derived(a, Removed(a, k))
  {
    var b := Removed(a, k);
    forall j | 0 <= j < |b| ensures b[j].storage >= -1 && exists i :: 0 <= i < |a| && SameLevel(a[i], b[j]) {
      assert SameLevel(a[if j < k then j else j + 1], b[j]);
    }
  }

  lemma {:induction false} OthersDerived(a: seq<Context>, apid: Id)
    requires StorageOk(a)
    ensures Derived(a, Others(a, apid))
  {
    var b := Others(a, apid);
    forall j | 0 <= j < |b| ensures b[j].storage >= -1 && exists i :: 0 <= i < |a| && SameLevel(a[i], b[j]) {
      OthersFrom(a, apid, j);
      var i :| 0 <= i < |a| && a[i] == b[j];
      assert SameLevel(a[i], b[j]);
    }
  }

  lemma {:induction false} DerivedTwice(a: seq<Context>, b: seq<Context>, c: seq<Context>)
    requires Derived(a, b) && |b| == |c| && forall k :: 0 <= k < |b| ==> SameLevel(b[k], c[k])
    ensures Derived(a, c)
  {
    forall k | 0 <= k < |c| && !c[k].predefined ensures exists j :: 0 <= j < |a| && SameLevel(a[j], c[k]) {
      var j :| 0 <= j < |a| && SameLevel(a[j], b[k]);
      assert SameLevel(a[j], c[k]);
    }
  }

  lemma {:induction false} InvalidatedSame(a: seq<Context>, fd: int)
    ensures forall k :: 0 <= k < |a| ==> SameLevel(a[k], InvalidateCtxs(a, fd)[k])
  {
  }

  lemma {:induction false} AttachSame(t: Tables, i: nat, pid: int, description: seq<Byte>, h: int, owns: bool)
    requires i < |t.apps|
    ensures forall k :: 0 <= k < |t.ctxs| ==> SameLevel(t.ctxs[k], Attach(t, i, pid, description, h, owns).ctxs[k])
  {
  }

  lemma {:induction false} AddAppSame(t: Tables, apid: Id, pid: int, description: seq<Byte>, h: int, owns: bool)
    ensures var u := AddApp(t, apid, pid, description, h, owns);
      |u.ctxs| == |t.ctxs| && forall k :: 0 <= k < |t.ctxs| ==> SameLevel(t.ctxs[k], u.ctxs[k])
  {
    hide Attach, FindApp;
    var i := FindApp(t.apps, apid);
    if i < |t.apps| {
      AttachSame(t, i, pid, description, h, owns);
    } else {
      AttachSame(AppendedApp(t, apid), i, pid, description, h, owns);
    }
  }

  /** Adding a context leaves the others alone. */
  lemma {:induction false} AddCtxDerived(t: Tables, loaded: bool, apid: Id, ctid: Id, level: int, status: int, pos: int, handle: int, description: seq<Byte>, k: nat)
    requires StorageOk(t.ctxs)
    ensures var u := AddCtx(t, loaded, apid, ctid, level, status, pos, handle, description);
      k < |u.ctxs| ==>
        && u.ctxs[k].storage >= -1
        && ((exists j :: 0 <= j < |t.ctxs| && SameLevel(t.ctxs[j], u.ctxs[k]))
            || (u.ctxs[k].apid == apid && u.ctxs[k].ctid == ctid && u.ctxs[k].predefined == (handle == 0)))
  {
    var u := AddCtx(t, loaded, apid, ctid, level, status, pos, handle, description);
    hide FindApp, Bumped;
    if CanAddCtx(t, apid, ctid, level, status) && k < |u.ctxs| {
      var i := FindCtx(t.ctxs, apid, ctid);
      if i < |t.ctxs| {
        assert k != i ==> SameLevel(t.ctxs[k], u.ctxs[k]);
      } else {
        var c := Fill(NewContext(apid, ctid), true, loaded, level, status, pos, handle, description);
        var p := Place(t.ctxs, CtxKey, CtxKey(c));
        assert u.ctxs[k] == if k < p then t.ctxs[k] else if k == p then c else t.ctxs[k - 1];
        assert k < p ==> SameLevel(t.ctxs[k], u.ctxs[k]);
        assert k > p ==> SameLevel(t.ctxs[k - 1], u.ctxs[k]);
      }
    } else if k < |u.ctxs| {
      assert SameLevel(t.ctxs[k], u.ctxs[k]);
    }
  }

  lemma {:induction false} LoadCtxDerived(t: Tables, loaded: bool, apid: Id, ctid: Id, level: int, status: int, description: seq<Byte>)
    requires StorageOk(t.ctxs)
    ensures Derived(t.ctxs, AddCtx(t, loaded, apid, ctid, level, status, 0, 0, description).ctxs)
  {
    hide AddCtx, SameLevel;
    var u := AddCtx(t, loaded, apid, ctid, level, status, 0, 0, description);
    forall k | 0 <= k < |u.ctxs|
      ensures u.ctxs[k].storage >= -1 && (u.ctxs[k].predefined || exists j :: 0 <= j < |t.ctxs| && SameLevel(t.ctxs[j], u.ctxs[k]))
    {
      AddCtxDerived(t, loaded, apid, ctid, level, status, 0, 0, description, k);
    }
  }

  lemma {:induction false} SendSame(t: Tables, k: nat, level: int, status: int, out: Outcome)
    requires k < |t.ctxs|
    ensures forall j :: 0 <= j < |t.ctxs| ==> SameLevel(t.ctxs[j], SendLevel(t, k, level, out).ctxs[j])
    ensures forall j :: 0 <= j < |t.ctxs| ==> SameLevel(t.ctxs[j], SendBoth(t, k, level, status, out).ctxs[j])
  {
    hide FindApp;
  }

  /** Setting log levels does not touch the cached ones. */
  lemma {:induction false} FullScanSame(t: Tables, q: LevelRequest, level: int, outs: nat -> Outcome, k: nat)
    requires k <= |t.ctxs|
    ensures forall j :: 0 <= j < |t.ctxs| ==> SameLevel(t.ctxs[j], FullScan(t, q, level, outs, k).ctxs[j])
    decreases |t.ctxs| - k
  {
    hide Targets, SendLevel;
    if k < |t.ctxs| {
      SendSame(t, k, level, 0, outs(k));
      FullScanSame(if Targets(q, t.ctxs[k]) then SendLevel(t, k, level, outs(k)) else t, q, level, outs, k + 1);
    }
  }

  lemma {:induction false} AppScanSame(t: Tables, apid: Id, level: int, status: int, outs: nat -> Outcome, k: nat)
    requires k <= |t.ctxs|
    ensures forall j :: 0 <= j < |t.ctxs| ==> SameLevel(t.ctxs[j], AppScan(t, apid, level, status, outs, k).ctxs[j])
    decreases |t.ctxs| - k
  {
    hide SendBoth;
    if k < |t.ctxs| {
      SendSame(t, k, level, status, outs(k));
      AppScanSame(if t.ctxs[k].apid == apid then SendBoth(t, k, level, status, outs(k)) else t,
                  apid, level, status, outs, k + 1);
    }
  }

  lemma {:induction false} ApplyDerived(t: Tables, loaded: bool, op: Op)
    requires StorageOk(t.ctxs) && !op.RegisterCtx?
    ensures Derived(t.ctxs, Apply(t, loaded, op).ctxs)
  {
    match op
    case Accepted(fd) =>
      InvalidatedSame(t.ctxs, fd);
      SameDerived(t.ctxs, Apply(t, loaded, op).ctxs);
    case RegisterApp(apid, pid, description, h, owns) =>
      AddAppSame(t, apid, pid, description, h, owns);
      SameDerived(t.ctxs, Apply(t, loaded, op).ctxs);
    case LoadCtx(apid, ctid, level, status, description) =>
      LoadCtxDerived(t, loaded, apid, ctid, level, status, description);
    case UnregisterApp(apid) =>
      UnregisterDerived(t, apid);
    case UnregisterCtx(apid, ctid) =>
      UnregisterCtxDerived(t, apid, ctid);
    case BrokenPipe(apid) =>
      BrokenPipeDerived(t, apid);
    case SetLevel(apid, ctid, level, outs) =>
      FullScanSame(t, LevelRequest(apid, ctid), level, outs, 0);
      SameDerived(t.ctxs, Apply(t, loaded, op).ctxs);
    case SetLevels(apid, level, status, outs) =>
      AppScanSame(t, apid, level, status, outs, 0);
      SameDerived(t.ctxs, Apply(t, loaded, op).ctxs);
    case ClearAll =>
  }

  lemma {:induction false} UnregisterDerived(t: Tables, apid: Id)
    requires StorageOk(t.ctxs)
    ensures Derived(t.ctxs, Unregister(t, apid).ctxs)
  {
    hide Derived, StorageOk;
    var i := FindApp(t.apps, apid);
    if i < |t.apps| {
      OthersDerived(t.ctxs, apid);
      InvalidatedSame(Others(t.ctxs, apid), t.apps[i].handle);
      DerivedTwice(t.ctxs, Others(t.ctxs, apid), InvalidateCtxs(Others(t.ctxs, apid), t.apps[i].handle));
    } else {
      SameDerived(t.ctxs, t.ctxs);
    }
  }

  lemma {:induction false} UnregisterCtxDerived(t: Tables, apid: Id, ctid: Id)
    requires StorageOk(t.ctxs)
    ensures Derived(t.ctxs, Apply(t, false, UnregisterCtx(apid, ctid)).ctxs)
    ensures Derived(t.ctxs, Apply(t, true, UnregisterCtx(apid, ctid)).ctxs)
  {
    hide Derived, StorageOk, FindApp;
    var k := FindCtx(t.ctxs, apid, ctid);
    if k < |t.ctxs| {
      RemovedDerived(t.ctxs, k);
    }
    SameDerived(t.ctxs, t.ctxs);
  }

  lemma {:induction false} BrokenPipeDerived(t: Tables, apid: Id)
    requires StorageOk(t.ctxs)
    ensures Derived(t.ctxs, Apply(t, false, BrokenPipe(apid)).ctxs)
    ensures Derived(t.ctxs, Apply(t, true, BrokenPipe(apid)).ctxs)
  {
    hide Derived, StorageOk;
    var a := FindApp(t.apps, apid);
    SameDerived(t.ctxs, t.ctxs);
    if a < |t.apps| {
      InvalidatedSame(t.ctxs, t.apps[a].handle);
      SameDerived(t.ctxs, InvalidateCtxs(t.ctxs, t.apps[a].handle));
    }
  }

  lemma {:induction false} DerivedRight(a: seq<Context>, b: seq<Context>, devs: seq<Device>, ecu: seq<Byte>)
    requires AllRight(a, devs, ecu) && Derived(a, b)
    ensures AllRight(b, devs, ecu)
  {
    hide UnionLevel;
    forall k | 0 <= k < |b| ensures Right(b[k], devs, ecu) {
      if !b[k].predefined {
        var j :| 0 <= j < |a| && SameLevel(a[j], b[k]);
        UnionById(devs, ecu, a[j], b[k]);
      }
    }
  }

  /** Nothing but cached levels differs. */
  predicate SameButLevel(a: seq<Context>, b: seq<Context>) {
    |a| == |b| && forall k :: 0 <= k < |a| ==> b[k] == a[k].(storage := b[k].storage)
  }

  lemma {:induction false} OnlyLevels(t: Tables, u: Tables)
    requires Indexed(t) && Owned(t) && u.apps == t.apps && SameButLevel(t.ctxs, u.ctxs)
    ensures Indexed(u) && Owned(u)
  {
    forall k | 0 <= k < |t.ctxs| ensures u.ctxs[k].apid == t.ctxs[k].apid && u.ctxs[k].ctid == t.ctxs[k].ctid {
      assert u.ctxs[k] == t.ctxs[k].(storage := u.ctxs[k].storage);
    }
    SameIdsIndexed(t, u);
    forall i, k | 0 <= i < |u.apps| && 0 <= k < |u.ctxs| && u.apps[i].apid == u.ctxs[k].apid
      ensures u.ctxs[k].handle == FD_INIT || u.ctxs[k].handle == 0 || u.ctxs[k].handle == u.apps[i].handle
    {
      assert u.ctxs[k] == t.ctxs[k].(storage := u.ctxs[k].storage);
    }
  }

  /** The context that was just registered is found, and it is the only one that is new. */
  lemma {:induction false} OthersAreOld(t: Tables, u: Tables, apid: Id, ctid: Id, j: nat)
    requires SortedCtxs(u.ctxs) && j < |u.ctxs| && j != FindCtx(u.ctxs, apid, ctid)
    ensures u.ctxs[j].apid != apid || u.ctxs[j].ctid != ctid
  {
    var k := FindCtx(u.ctxs, apid, ctid);
    assert k < j ==> CtxKey(u.ctxs[k]) < CtxKey(u.ctxs[j]);
  }

  /** Whatever filter the search for the level of the new context misses is outweighed by one it finds. */
  ghost predicate RegistrationOk(devs: seq<Device>, ecu: seq<Byte>, apid: Id, ctid: Id) {
    Outweighed(devs, ecu, NewContext(apid, ctid))
  }

  lemma {:induction false} NewLevel(devs: seq<Device>, ecu: seq<Byte>, c: Context, level: int)
    requires DevicesOk(devs) && !c.predefined
    requires level == GetLevel(devs, ecu, Str(c.apid), Str(c.ctid), -1)
    ensures Right(c.(storage := level), devs, ecu) <==> RegistrationOk(devs, ecu, c.apid, c.ctid)
  {
    hide DevicesOk, GetLevel, Outweighed, Str, UnionLevel, FoundLevel;
    var n := NewContext(c.apid, c.ctid);
    NewContextLevel(devs, ecu, n);
    LevelIsFound(devs, ecu, n, -1);
    UnionById(devs, ecu, n, c.(storage := level));
  }

  lemma {:induction false} RestRight(s: Store, ecu: seq<Byte>, u: Tables, loaded: bool, op: Op, k: nat)
    requires AllRight(s.t.ctxs, s.devs, ecu) && op.RegisterCtx?
    requires u == Apply(s.t, loaded, op) && SortedCtxs(u.ctxs) && k == FindCtx(u.ctxs, op.apid, op.ctid)
    ensures RightBut(u.ctxs, k, s.devs, ecu)
  {
    hide AllRight, Apply, SortedCtxs, FindCtx, Right;
    forall j | 0 <= j < |u.ctxs| && j != k ensures Right(u.ctxs[j], s.devs, ecu) {
      OthersAreOld(s.t, u, op.apid, op.ctid, j);
      OldRight(s, ecu, u, loaded, op, j);
    }
  }

  predicate RightBut(ctxs: seq<Context>, k: nat, devs: seq<Device>, ecu: seq<Byte>) {
    forall j :: 0 <= j < |ctxs| && j != k ==> Right(ctxs[j], devs, ecu)
  }

  lemma {:induction false} RightIfStored(ctxs: seq<Context>, k: nat, level: int, devs: seq<Device>, ecu: seq<Byte>)
    requires k < |ctxs| && RightBut(ctxs, k, devs, ecu)
    ensures AllRight(StoreLevel(ctxs, k, level), devs, ecu) <==> Right(ctxs[k].(storage := level), devs, ecu)
  {
    hide Right;
    var v := StoreLevel(ctxs, k, level);
    assert v[k] == ctxs[k].(storage := level);
    assert forall j :: 0 <= j < |ctxs| && j != k ==> v[j] == ctxs[j];
  }

  /** All but the new context are right, and the new one is if its level is. */
  lemma {:induction false} RegisteredRight(s: Store, ecu: seq<Byte>, u: Tables, loaded: bool, op: Op, k: nat)
    requires AllRight(s.t.ctxs, s.devs, ecu) && DevicesOk(s.devs) && op.RegisterCtx?
    requires u == Apply(s.t, loaded, op) && SortedCtxs(u.ctxs) && k == FindCtx(u.ctxs, op.apid, op.ctid) < |u.ctxs|
    requires !u.ctxs[k].predefined
    ensures AllRight(StoreLevel(u.ctxs, k, GetLevel(s.devs, ecu, Str(op.apid), Str(op.ctid), -1)), s.devs, ecu)
      <==> RegistrationOk(s.devs, ecu, op.apid, op.ctid)
  {
    hide *;
    var level := GetLevel(s.devs, ecu, Str(op.apid), Str(op.ctid), -1);
    RestRight(s, ecu, u, loaded, op, k);
    RightIfStored(u.ctxs, k, level, s.devs, ecu);
    NewLevel(s.devs, ecu, u.ctxs[k], level);
  }

  /** A context registered by an application is not predefined. */
  lemma {:induction false} NotPredefined(t: Tables, loaded: bool, op: Op)
    requires Indexed(t) && Owned(t) && op.RegisterCtx? && CanAddCtx(t, op.apid, op.ctid, op.level, op.status)
    ensures var u := Apply(t, loaded, op); var k := FindCtx(u.ctxs, op.apid, op.ctid); k < |u.ctxs| && !u.ctxs[k].predefined
  {
    var a := FindApp(t.apps, op.apid);
    assert HandleOk(t.apps[a].handle);
    AddCtxNamed(t, loaded, op.apid, op.ctid, op.level, op.status, op.pos, t.apps[a].handle, op.description);
    hide Indexed, Owned, AddCtx, FindCtx;
  }

  lemma {:induction false} OldRight(s: Store, ecu: seq<Byte>, u: Tables, loaded: bool, op: Op, j: nat)
    requires AllRight(s.t.ctxs, s.devs, ecu) && op.RegisterCtx?
    requires u == Apply(s.t, loaded, op) && j < |u.ctxs| && (u.ctxs[j].apid != op.apid || u.ctxs[j].ctid != op.ctid)
    ensures Right(u.ctxs[j], s.devs, ecu)
  {
    hide AddCtx, UnionLevel;
    var a := FindApp(s.t.apps, op.apid);
    if a < |s.t.apps| {
      AddCtxDerived(s.t, loaded, op.apid, op.ctid, op.level, op.status, op.pos, s.t.apps[a].handle, op.description, j);
      var i :| 0 <= i < |s.t.ctxs| && SameLevel(s.t.ctxs[i], u.ctxs[j]);
      UnionById(s.devs, ecu, s.t.ctxs[i], u.ctxs[j]);
    }
  }

  /** A registration that is refused changes nothing. */
  lemma {:induction false} Refused(t: Tables, loaded: bool, op: Op)
    requires op.RegisterCtx? && !CanAddCtx(t, op.apid, op.ctid, op.level, op.status)
    ensures Apply(t, loaded, op) == t
  {
  }

  lemma {:induction false} RightStorage(ctxs: seq<Context>, devs: seq<Device>, ecu: seq<Byte>)
    requires AllRight(ctxs, devs, ecu)
    ensures StorageOk(ctxs)
  {
    hide UnionLevel;
  }

  function Registered(s: Store, ecu: seq<Byte>, loaded: bool, op: Op): (r: Tables)
    requires op.RegisterCtx? && FindCtx(Apply(s.t, loaded, op).ctxs, op.apid, op.ctid) < |Apply(s.t, loaded, op).ctxs|
  {
    var u := Apply(s.t, loaded, op);
    u.(ctxs := StoreLevel(u.ctxs, FindCtx(u.ctxs, op.apid, op.ctid), GetLevel(s.devs, ecu, Str(op.apid), Str(op.ctid), -1)))
  }

  lemma {:induction false} StepRegisters(s: Store, ecu: seq<Byte>, loaded: bool, op: Op)
    requires op.RegisterCtx? && CanAddCtx(s.t, op.apid, op.ctid, op.level, op.status)
    requires FindCtx(Apply(s.t, loaded, op).ctxs, op.apid, op.ctid) < |Apply(s.t, loaded, op).ctxs|
    ensures Step(s, ecu, loaded, Registry(op)) == s.(t := Registered(s, ecu, loaded, op))
  {
    hide Apply, CanAddCtx, FindCtx, GetLevel;
  }

  lemma {:induction false} RegisteredBooks(s: Store, ecu: seq<Byte>, loaded: bool, op: Op)
    requires Indexed(s.t) && Owned(s.t) && op.RegisterCtx? && OpOk(op)
    requires FindCtx(Apply(s.t, loaded, op).ctxs, op.apid, op.ctid) < |Apply(s.t, loaded, op).ctxs|
    ensures Indexed(Registered(s, ecu, loaded, op)) && Owned(Registered(s, ecu, loaded, op))
  {
    hide Indexed, Owned, Apply, FindCtx, GetLevel, OpOk;
    ApplyKeeps(s.t, loaded, op);
    OnlyLevels(Apply(s.t, loaded, op), Registered(s, ecu, loaded, op));
  }

  /** An accepted registration leaves every cached level right if and only if what the search misses is
      outweighed by what it finds. */
  lemma {:induction false} RegistrationIff(s: Store, ecu: seq<Byte>, loaded: bool, op: Op)
    requires Good(s, ecu) && op.RegisterCtx? && OpOk(op) && CanAddCtx(s.t, op.apid, op.ctid, op.level, op.status)
    ensures Good(Step(s, ecu, loaded, Registry(op)), ecu) <==> RegistrationOk(s.devs, ecu, op.apid, op.ctid)
  {
    hide Indexed, Owned, DevicesOk, AllRight, RegistrationOk, Apply, FindCtx, CanAddCtx, SortedCtxs, GetLevel, OpOk, Step;
    var u := Apply(s.t, loaded, op);
    NotPredefined(s.t, loaded, op);
    var k := FindCtx(u.ctxs, op.apid, op.ctid);
    ApplyKeeps(s.t, loaded, op);
    SortedOf(u);
    RegisteredRight(s, ecu, u, loaded, op, k);
    RegisteredBooks(s, ecu, loaded, op);
    StepRegisters(s, ecu, loaded, op);
  }

  lemma {:induction false} RegistryKeeps(s: Store, ecu: seq<Byte>, loaded: bool, op: Op)
    requires Good(s, ecu) && OpOk(op)
    requires op.RegisterCtx? && CanAddCtx(s.t, op.apid, op.ctid, op.level, op.status) ==>
      RegistrationOk(s.devs, ecu, op.apid, op.ctid)
    ensures Good(Step(s, ecu, loaded, Registry(op)), ecu)
  {
    var u := Apply(s.t, loaded, op);
    ApplyKeeps(s.t, loaded, op);
    RightStorage(s.t.ctxs, s.devs, ecu);
    hide Indexed, Owned, DevicesOk, Apply, AllRight, RegistrationOk, GetLevel, FindCtx, StorageOk, CanAddCtx;
    if !op.RegisterCtx? {
      ApplyDerived(s.t, loaded, op);
      DerivedRight(s.t.ctxs, u.ctxs, s.devs, ecu);
    } else if CanAddCtx(s.t, op.apid, op.ctid, op.level, op.status) {
      RegistrationIff(s, ecu, loaded, op);
    } else {
      Refused(s.t, loaded, op);
    }
  }

  lemma {:induction false} SortedOf(t: Tables)
    requires Indexed(t)
    ensures SortedCtxs(t.ctxs)
  {
  }

  // ---- connecting

  function LevelOf(dev: Device, ecu: seq<Byte>, c: Context): int {
    MaxLevel(HitFilters(dev, ecu, c))
  }

  /** What the device at d asks for afterwards. */
  function NewFilters(filters: Device, load: Load): Device {
    if load.NotLoaded? then [] else filters
  }

  /** No level is left over from the filters the device had before, and none is missing because the
      levels were not raised. */
  predicate Harmless(devs: seq<Device>, d: nat, filters: Device, load: Load, ecu: seq<Byte>, c: Context)
    requires d < |devs|
  {
    var others := UnionLevel(devs[d := []], ecu, c);
    var before, after := LevelOf(devs[d], ecu, c), LevelOf(NewFilters(filters, load), ecu, c);
    before <= Max(others, after) && (load.Warned? ==> after <= Max(others, before))
  }

  lemma {:induction false} RightIffHarmless(devs: seq<Device>, d: nat, filters: Device, load: Load, ecu: seq<Byte>, c: Context, e: Context)
    requires d < |devs| && Right(c, devs, ecu)
    requires e == c.(storage := if load.Loaded? then Max(c.storage, LevelOf(filters, ecu, c)) else c.storage)
    ensures Right(e, devs[d := NewFilters(filters, load)], ecu) <==> c.predefined || Harmless(devs, d, filters, load, ecu, c)
  {
    UnionParts(devs, d, ecu, c);
    UnionReplaced(devs, d, NewFilters(filters, load), ecu, c);
    UnionById(devs[d := NewFilters(filters, load)], ecu, c, e);
    hide UnionLevel, MaxLevel, HitFilters;
  }

  lemma {:induction false} ConnectedAt(s: Store, ecu: seq<Byte>, loaded: bool, d: nat, filters: Device, load: Load, k: nat)
    requires Good(s, ecu) && d < |s.devs| && DeviceOk(filters) && k < |s.t.ctxs|
    ensures var u := Step(s, ecu, loaded, Connected(d, filters, load)); var c := s.t.ctxs[k];
      && |u.t.ctxs| == |s.t.ctxs|
      && u.t.ctxs[k] == c.(storage := if load.Loaded? then Max(c.storage, LevelOf(filters, ecu, c)) else c.storage)
      && (Right(u.t.ctxs[k], u.devs, ecu) <==> c.predefined || Harmless(s.devs, d, filters, load, ecu, c))
  {
    var u := Step(s, ecu, loaded, Connected(d, filters, load));
    var c := s.t.ctxs[k];
    assert Right(c, s.devs, ecu);
    if load.Loaded? {
      UpdateDeviceAt(s.t.ctxs, ecu, filters, k);
    }
    hide Good, DeviceOk, UpdateDevice, MaxLevel, HitFilters, Harmless, Right, Max;
    RightIffHarmless(s.devs, d, filters, load, ecu, c, u.t.ctxs[k]);
  }

  /** Connecting a device leaves every cached level right if and only if it is harmless for every context
      that an application registered. */
  lemma {:induction false} ConnectedIff(s: Store, ecu: seq<Byte>, loaded: bool, d: nat, filters: Device, load: Load)
    requires Good(s, ecu) && d < |s.devs| && DeviceOk(filters)
    ensures Good(Step(s, ecu, loaded, Connected(d, filters, load)), ecu) <==>
      forall k :: 0 <= k < |s.t.ctxs| ==> s.t.ctxs[k].predefined || Harmless(s.devs, d, filters, load, ecu, s.t.ctxs[k])
  {
    var u := Step(s, ecu, loaded, Connected(d, filters, load));
    hide Indexed, Owned, DeviceOk, UnionLevel, UpdateDevice, MaxLevel, HitFilters, Harmless, Right;
    forall k | 0 <= k < |s.t.ctxs|
      ensures u.t.ctxs[k] == s.t.ctxs[k].(storage := u.t.ctxs[k].storage)
      ensures Right(u.t.ctxs[k], u.devs, ecu) <==> s.t.ctxs[k].predefined || Harmless(s.devs, d, filters, load, ecu, s.t.ctxs[k])
    {
      ConnectedAt(s, ecu, loaded, d, filters, load, k);
    }
    OnlyLevels(s.t, u.t);
    NoFilters();
  }

  lemma {:induction false} NoFilters()
    ensures DeviceOk([])
  {
  }

  /** A device that was not connected, and whose configuration gives no warning, is harmless. */
  lemma {:induction false} UnusedDeviceHarmless(devs: seq<Device>, d: nat, filters: Device, load: Load, ecu: seq<Byte>, c: Context)
    requires d < |devs| && devs[d] == [] && !load.Warned?
    ensures Harmless(devs, d, filters, load, ecu, c)
  {
    NoFilterHits(ecu, c);
    hide HitFilters, MaxLevel;
  }

  // ---- disconnecting

  lemma {:induction false} UpdateOthersAt(ctxs: seq<Context>, ecu: seq<Byte>, devs: seq<Device>, d: nat, i: nat, k: nat)
    requires SortedCtxs(ctxs) && DevicesOk(devs) && d < |devs| && i <= |devs| && k < |ctxs| && ctxs[k].storage >= -1
    ensures UpdateOthers(ctxs, ecu, devs, d, i)[k] ==
      ctxs[k].(storage := Max(ctxs[k].storage, UnionLevel(devs[d := []][i..], ecu, ctxs[k])))
    decreases |devs| - i
  {
    hide SortedCtxs, UpdateDevice, HitFilters, MaxLevel, DeviceOk;
    if i < |devs| {
      var rest := devs[d := []][i..];
      assert rest[0] == (if i == d then [] else devs[i]) && rest[1..] == devs[d := []][i + 1..];
      if i == d {
        NoFilterHits(ecu, ctxs[k]);
        UpdateOthersAt(ctxs, ecu, devs, d, i + 1, k);
      } else {
        var next := UpdateDevice(ctxs, ecu, devs[i]);
        UpdateDeviceAt(ctxs, ecu, devs[i], k);
        UpdateOthersAt(next, ecu, devs, d, i + 1, k);
        UnionById(rest[1..], ecu, ctxs[k], next[k]);
      }
    }
  }

  lemma {:induction false} DisconnectedAt(s: Store, ecu: seq<Byte>, loaded: bool, d: nat, k: nat)
    requires Good(s, ecu) && d < |s.devs| && k < |s.t.ctxs|
    ensures var u := Step(s, ecu, loaded, Disconnected(d)); var c := s.t.ctxs[k];
      u.t.ctxs[k] == c.(storage := u.t.ctxs[k].storage) && Right(u.t.ctxs[k], u.devs, ecu)
  {
    var u := Step(s, ecu, loaded, Disconnected(d));
    var c, dev, others := s.t.ctxs[k], s.devs[d], s.devs[d := []];
    assert Right(c, s.devs, ecu) && DeviceOk(dev) && SortedCtxs(s.t.ctxs);
    AllKeysOk(dev);
    AllKeysHit(dev, ecu, c);
    hide Indexed, Owned, AllRight, SortedCtxs, KeysOk, DeviceOk, DevicesOk, AllKeys, Hits, HitFilters, MaxLevel, UnionLevel, ResetKeys, UpdateOthers;
    var reset := ResetKeys(s.t.ctxs, ecu, AllKeys(dev));
    ResetKeysAt(s.t.ctxs, ecu, AllKeys(dev), k);
    UpdateOthersAt(reset, ecu, s.devs, d, 0, k);
    assert others[0..] == others;
    UnionById(others, ecu, c, reset[k]);
    UnionById(others, ecu, c, u.t.ctxs[k]);
    UnionParts(s.devs, d, ecu, c);
  }

  lemma {:induction false} DisconnectedAllRight(s: Store, ecu: seq<Byte>, loaded: bool, d: nat)
    requires Good(s, ecu) && d < |s.devs|
    ensures var u := Step(s, ecu, loaded, Disconnected(d));
      SameButLevel(s.t.ctxs, u.t.ctxs) && AllRight(u.t.ctxs, u.devs, ecu) && u.t.apps == s.t.apps
  {
    var u := Step(s, ecu, loaded, Disconnected(d));
    hide Good, ResetDevice, Right;
    forall k | 0 <= k < |s.t.ctxs|
      ensures u.t.ctxs[k] == s.t.ctxs[k].(storage := u.t.ctxs[k].storage)
      ensures Right(u.t.ctxs[k], u.devs, ecu)
    {
      DisconnectedAt(s, ecu, loaded, d, k);
    }
  }

  lemma {:induction false} DisconnectedKeeps(s: Store, ecu: seq<Byte>, loaded: bool, d: nat)
    requires Good(s, ecu)
    ensures Good(Step(s, ecu, loaded, Disconnected(d)), ecu)
  {
    var u := Step(s, ecu, loaded, Disconnected(d));
    if d < |s.devs| {
      DisconnectedAllRight(s, ecu, loaded, d);
      hide Indexed, Owned, DeviceOk, ResetDevice, SameButLevel, AllRight;
      OnlyLevels(s.t, u.t);
      NoFilters();
    }
  }

  // ---- runs

  /** What an event must meet, told from the state before it. */
  ghost predicate EventOk(s: Store, ecu: seq<Byte>, ev: Event) {
    match ev
    case Registry(op) =>
      op.RegisterCtx? && CanAddCtx(s.t, op.apid, op.ctid, op.level, op.status) ==>
        RegistrationOk(s.devs, ecu, op.apid, op.ctid)
    case Connected(d, filters, load) =>
      d < |s.devs| ==>
        forall k :: 0 <= k < |s.t.ctxs| ==> s.t.ctxs[k].predefined || Harmless(s.devs, d, filters, load, ecu, s.t.ctxs[k])
    case Disconnected(d) => true
  }

  /** Values within their ranges, filters with known keys, levels and files. */
  ghost predicate InputOk(ev: Event) {
    match ev
    case Registry(op) => OpOk(op)
    case Connected(d, filters, load) => DeviceOk(filters)
    case Disconnected(d) => true
  }

  function Run(s: Store, ecu: seq<Byte>, loaded: bool, evs: seq<Event>): Store
    decreases |evs|
  {
    if evs == [] then s else Run(Step(s, ecu, loaded, evs[0]), ecu, loaded, evs[1..])
  }

  ghost predicate EventsOk(s: Store, ecu: seq<Byte>, loaded: bool, evs: seq<Event>)
    decreases |evs|
  {
    evs == [] || (InputOk(evs[0]) && EventOk(s, ecu, evs[0]) && EventsOk(Step(s, ecu, loaded, evs[0]), ecu, loaded, evs[1..]))
  }

  /** An event leaves every cached level right if and only if it meets this. */
  lemma {:induction false} StepIff(s: Store, ecu: seq<Byte>, loaded: bool, ev: Event)
    requires Good(s, ecu) && InputOk(ev)
    ensures Good(Step(s, ecu, loaded, ev), ecu) <==> EventOk(s, ecu, ev)
  {
    hide Good, OpOk, DeviceOk, Harmless, RegistrationOk, CanAddCtx;
    match ev
    case Registry(op) =>
      if op.RegisterCtx? && CanAddCtx(s.t, op.apid, op.ctid, op.level, op.status) {
        RegistrationIff(s, ecu, loaded, op);
      } else {
        RegistryKeeps(s, ecu, loaded, op);
      }
    case Connected(d, filters, load) =>
      if d < |s.devs| {
        ConnectedIff(s, ecu, loaded, d, filters, load);
      }
    case Disconnected(d) => DisconnectedKeeps(s, ecu, loaded, d);
  }

  /** After any run of registrations and device events each context that an application registered caches
      exactly the highest level over all connected devices' filters that match it, and -1 if none does. */
  lemma {:induction false} CachedLevels(s: Store, ecu: seq<Byte>, loaded: bool, evs: seq<Event>)
    requires Good(s, ecu) && EventsOk(s, ecu, loaded, evs)
    ensures Good(Run(s, ecu, loaded, evs), ecu)
    decreases |evs|
  {
    hide Good, EventOk, InputOk, Step;
    if evs != [] {
      StepIff(s, ecu, loaded, evs[0]);
      CachedLevels(Step(s, ecu, loaded, evs[0]), ecu, loaded, evs[1..]);
    }
  }

  /** From an empty registry without devices, for contexts as they stand at the end. */
  lemma {:induction false} CachedFromEmpty(n: nat, ecu: seq<Byte>, loaded: bool, evs: seq<Event>, k: nat)
    requires EventsOk(Store(Tables([], []), NoDevices(n), {}), ecu, loaded, evs)
    ensures var s := Run(Store(Tables([], []), NoDevices(n), {}), ecu, loaded, evs);
      k < |s.t.ctxs| && !s.t.ctxs[k].predefined ==> s.t.ctxs[k].storage == UnionLevel(s.devs, ecu, s.t.ctxs[k])
  {
    var s := Store(Tables([], []), NoDevices(n), {});
    assert Good(s, ecu);
    hide Run, EventsOk, UnionLevel;
    CachedLevels(s, ecu, loaded, evs);
  }

  function NoDevices(n: nat): (r: seq<Device>)
    ensures |r| == n && forall i :: 0 <= i < n ==> r[i] == []
  {
    seq(n, _ => [])
  }
}

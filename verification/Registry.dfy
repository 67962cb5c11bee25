/** The application and context tables of one user list, on values, and what their operations keep. */
module Registry {
  import opened Ids
  import opened Sorting

  const FD_INIT := -1
  const FD_MINIMUM := 3
  const LOG_DEFAULT := -1
  const LOG_VERBOSE := 6
  const TRACE_DEFAULT := -1
  const TRACE_ON := 1

  /** `count` is the number of contexts registered for the application. */
  datatype Application = Application(
    apid: Id, pid: int, handle: int, owns: bool, description: seq<Byte>, count: int)

  datatype Context = Context(
    apid: Id, ctid: Id, level: int, status: int, pos: int, handle: int,
    description: seq<Byte>, storage: int, predefined: bool)

  datatype Tables = Tables(apps: seq<Application>, ctxs: seq<Context>)

  function AppKey(a: Application): int {
    Num(a.apid)
  }

  function CtxNum(apid: Id, ctid: Id): int {
    Num(apid) * 0x1_0000_0000 + Num(ctid)
  }

  function CtxKey(c: Context): int {
    CtxNum(c.apid, c.ctid)
  }

  lemma {:induction false} CtxNumOrder(a: Id, c: Id, b: Id, d: Id)
    ensures CtxNum(a, c) < CtxNum(b, d) <==> Num(a) < Num(b) || (Num(a) == Num(b) && Num(c) < Num(d))
    ensures CtxNum(a, c) == CtxNum(b, d) <==> a == b && c == d
  {
    if Num(a) == Num(b) {
      NumInjective(a, b);
    }
    if Num(c) == Num(d) {
      NumInjective(c, d);
    }
  }

  /** Index of the application, or |apps|. */
  function FindApp(apps: seq<Application>, apid: Id): (i: nat)
    ensures i <= |apps|
    ensures i < |apps| ==> apps[i].apid == apid
    ensures forall j :: 0 <= j < i ==> apps[j].apid != apid
  {
    if apps == [] || apps[0].apid == apid then 0 else 1 + FindApp(apps[1..], apid)
  }

  /** Index of the context, or |ctxs|. */
  function FindCtx(ctxs: seq<Context>, apid: Id, ctid: Id): (i: nat)
    ensures i <= |ctxs|
    ensures i < |ctxs| ==> ctxs[i].apid == apid && ctxs[i].ctid == ctid
    ensures forall j :: 0 <= j < i ==> !(ctxs[j].apid == apid && ctxs[j].ctid == ctid)
  {
    if ctxs == [] || (ctxs[0].apid == apid && ctxs[0].ctid == ctid) then 0 else 1 + FindCtx(ctxs[1..], apid, ctid)
  }

  /** Number of contexts of one application. */
  function CountOf(ctxs: seq<Context>, apid: Id): nat {
    if ctxs == [] then 0 else (if ctxs[0].apid == apid then 1 else 0) + CountOf(ctxs[1..], apid)
  }

  ghost predicate SortedApps(apps: seq<Application>) {
    forall i, j :: 0 <= i < j < |apps| ==> AppKey(apps[i]) < AppKey(apps[j])
  }

  ghost predicate SortedCtxs(ctxs: seq<Context>) {
    forall i, j :: 0 <= i < j < |ctxs| ==> CtxKey(ctxs[i]) < CtxKey(ctxs[j])
  }

  /** The registered application identifiers. */
  ghost function Apids(apps: seq<Application>): set<Id> {
    set i | 0 <= i < |apps| :: apps[i].apid
  }

  predicate CountsRight(apps: seq<Application>, ctxs: seq<Context>) {
    forall i :: 0 <= i < |apps| ==> apps[i].count == CountOf(ctxs, apps[i].apid)
  }

  ghost predicate Homed(ctxs: seq<Context>, ids: set<Id>) {
    forall k :: 0 <= k < |ctxs| ==> ctxs[k].apid in ids
  }

  /** Both tables are strictly sorted, the counters are right, every context has an application. */
  ghost predicate Indexed(t: Tables) {
    && SortedApps(t.apps) && SortedCtxs(t.ctxs)
    && CountsRight(t.apps, t.ctxs) && Homed(t.ctxs, Apids(t.apps))
  }

  // ---- changes of handles

  function InvalidateApps(apps: seq<Application>, fd: int): (r: seq<Application>)
    ensures |r| == |apps|
    ensures forall i :: 0 <= i < |apps| ==> r[i] == if apps[i].handle == fd then apps[i].(handle := FD_INIT) else apps[i]
  {
    seq(|apps|, i requires 0 <= i < |apps| =>
      if apps[i].handle == fd then apps[i].(handle := FD_INIT) else apps[i])
  }

  function InvalidateCtxs(ctxs: seq<Context>, fd: int): (r: seq<Context>)
    ensures |r| == |ctxs|
    ensures forall i :: 0 <= i < |ctxs| ==> r[i] == if ctxs[i].handle == fd then ctxs[i].(handle := FD_INIT) else ctxs[i]
  {
    seq(|ctxs|, i requires 0 <= i < |ctxs| =>
      if ctxs[i].handle == fd then ctxs[i].(handle := FD_INIT) else ctxs[i])
  }

  /** A descriptor was handed out by the system again: nobody may still use it. */
  function Accept(t: Tables, fd: int): Tables {
    Tables(InvalidateApps(t.apps, fd), InvalidateCtxs(t.ctxs, fd))
  }

  /** Drop the connection to an application, for itself and for its contexts. */
  function ResetHandle(t: Tables, i: nat): Tables
    requires i < |t.apps|
  {
    if t.apps[i].handle == FD_INIT then t
    else Tables(t.apps[i := t.apps[i].(handle := FD_INIT, owns := false)], InvalidateCtxs(t.ctxs, t.apps[i].handle))
  }

  // ---- applications

  /** Steps of registering on the entry at index i, before sorting. `h` is the handle that was obtained. */
  function Attach(t: Tables, i: nat, pid: int, description: seq<Byte>, h: int, owns: bool): (r: Tables)
    requires i < |t.apps|
    ensures |r.apps| == |t.apps| && |r.ctxs| == |t.ctxs|
  {
    var t1 := t.(apps := t.apps[i := t.apps[i].(description := description)]);
    var t2 :=
      if t1.apps[i].pid == pid then t1
      else
        var u := ResetHandle(t1, i);
        u.(apps := u.apps[i := u.apps[i].(pid := 0)]);
    if t2.apps[i].handle == FD_INIT && pid != 0 then
      var u := Accept(t2, h);
      u.(apps := u.apps[i := u.apps[i].(handle := h, owns := owns, pid := pid)])
    else
      t2
  }

  function NewApplication(apid: Id): Application {
    Application(apid, 0, FD_INIT, false, [], 0)
  }

  function AppendedApp(t: Tables, apid: Id): (r: Tables)
    ensures |r.apps| == |t.apps| + 1
  {
    t.(apps := t.apps + [NewApplication(apid)])
  }

  /** The last entry moved to its place. */
  function SortedIn(t: Tables): Tables
    requires t.apps != []
  {
    var n := |t.apps| - 1;
    t.(apps := Insert(t.apps[..n], AppKey, t.apps[n]))
  }

  function AddApp(t: Tables, apid: Id, pid: int, description: seq<Byte>, h: int, owns: bool): Tables {
    if apid == NO_ID then t
    else
      var i := FindApp(t.apps, apid);
      if i < |t.apps| then
        Attach(t, i, pid, description, h, owns)
      else
        SortedIn(Attach(AppendedApp(t, apid), i, pid, description, h, owns))
  }

  // ---- contexts

  predicate LevelOk(level: int, status: int) {
    LOG_DEFAULT <= level <= LOG_VERBOSE && TRACE_DEFAULT <= status <= TRACE_ON
  }

  /** The fields that registering a context sets; levels of a known context survive a loaded configuration. */
  function Fill(c: Context, isNew: bool, loaded: bool, level: int, status: int, pos: int, handle: int, description: seq<Byte>): Context {
    c.(level := if isNew || !loaded then level else c.level,
       status := if isNew || !loaded then status else c.status,
       pos := pos, handle := handle, predefined := handle == 0, description := description)
  }

  function NewContext(apid: Id, ctid: Id): Context {
    Context(apid, ctid, 0, 0, 0, 0, [], 0, false)
  }

  predicate CanAddCtx(t: Tables, apid: Id, ctid: Id, level: int, status: int) {
    apid != NO_ID && ctid != NO_ID && LevelOk(level, status) && FindApp(t.apps, apid) < |t.apps|
  }

  /** One counter changed by d. */
  function Bumped(apps: seq<Application>, a: nat, d: int): seq<Application>
    requires a < |apps|
  {
    apps[a := apps[a].(count := apps[a].count + d)]
  }

  function AddCtx(t: Tables, loaded: bool, apid: Id, ctid: Id, level: int, status: int, pos: int, handle: int, description: seq<Byte>): Tables {
    if !CanAddCtx(t, apid, ctid, level, status) then t
    else
      var a := FindApp(t.apps, apid);
      var k := FindCtx(t.ctxs, apid, ctid);
      if k < |t.ctxs| then
        t.(ctxs := t.ctxs[k := Fill(t.ctxs[k], false, loaded, level, status, pos, handle, description)])
      else
        Tables(Bumped(t.apps, a, 1),
               Insert(t.ctxs, CtxKey, Fill(NewContext(apid, ctid), true, loaded, level, status, pos, handle, description)))
  }

  function Removed<T>(s: seq<T>, k: nat): (r: seq<T>)
    requires k < |s|
    ensures |r| == |s| - 1
  {
    s[..k] + s[k + 1..]
  }

  function DelCtx(t: Tables, k: nat): (r: Tables)
    requires k < |t.ctxs|
    ensures |r.apps| == |t.apps| && |r.ctxs| == |t.ctxs| - 1
  {
    var a := FindApp(t.apps, t.ctxs[k].apid);
    Tables(if a < |t.apps| then Bumped(t.apps, a, -1) else t.apps, Removed(t.ctxs, k))
  }

  function ClearCtxs(t: Tables): (r: Tables)
    ensures |r.apps| == |t.apps|
    ensures forall i :: 0 <= i < |t.apps| ==> r.apps[i] == t.apps[i].(count := 0)
  {
    Tables(seq(|t.apps|, i requires 0 <= i < |t.apps| => t.apps[i].(count := 0)), [])
  }

  /** Delete the entry itself; its contexts must have been deleted before. */
  function DelApp(t: Tables, i: nat): Tables
    requires i < |t.apps|
  {
    var u := ResetHandle(t, i);
    u.(apps := Removed(u.apps, i))
  }

  /** The contexts of all other applications, in their order. */
  function Others(ctxs: seq<Context>, apid: Id): seq<Context> {
    if ctxs == [] then [] else (if ctxs[0].apid == apid then [] else [ctxs[0]]) + Others(ctxs[1..], apid)
  }

  /** Unregistering: the application, its contexts and its handle go, the rest stays in order. */
  function Unregister(t: Tables, apid: Id): Tables {
    var i := FindApp(t.apps, apid);
    if i == |t.apps| then t
    else
      var rest := Others(t.ctxs, apid);
      Tables(Removed(t.apps, i), if t.apps[i].handle == FD_INIT then rest else InvalidateCtxs(rest, t.apps[i].handle))
  }

  // ---- counting

  lemma {:induction false} CountSplit(a: seq<Context>, b: seq<Context>, apid: Id)
    ensures CountOf(a + b, apid) == CountOf(a, apid) + CountOf(b, apid)
  {
    if a == [] {
      assert a + b == b;
    } else {
      CountSplit(a[1..], b, apid);
      assert (a + b)[1..] == a[1..] + b;
    }
  }

  lemma {:induction false} CountRemoved(ctxs: seq<Context>, k: nat, apid: Id)
    requires k < |ctxs|
    ensures CountOf(Removed(ctxs, k), apid) == CountOf(ctxs, apid) - (if ctxs[k].apid == apid then 1 else 0)
  {
    CountSplit(ctxs[..k], [ctxs[k]] + ctxs[k + 1..], apid);
    CountSplit([ctxs[k]], ctxs[k + 1..], apid);
    CountSplit(ctxs[..k], ctxs[k + 1..], apid);
    assert ctxs == ctxs[..k] + ([ctxs[k]] + ctxs[k + 1..]);
  }

  lemma {:induction false} CountInserted(ctxs: seq<Context>, c: Context, apid: Id)
    ensures CountOf(Insert(ctxs, CtxKey, c), apid) == CountOf(ctxs, apid) + (if c.apid == apid then 1 else 0)
  {
    var p := Place(ctxs, CtxKey, CtxKey(c));
    var r := Insert(ctxs, CtxKey, c);
    CountRemoved(r, p, apid);
    assert Removed(r, p) == ctxs;
  }

  /** Changing entries without changing their application changes no count. */
  lemma {:induction false} CountSameIds(a: seq<Context>, b: seq<Context>, apid: Id)
    requires |a| == |b| && forall k :: 0 <= k < |a| ==> a[k].apid == b[k].apid
    ensures CountOf(a, apid) == CountOf(b, apid)
  {
    if a != [] {
      CountSameIds(a[1..], b[1..], apid);
    }
  }

  lemma {:induction false} CountZero(ctxs: seq<Context>, apid: Id)
    ensures CountOf(ctxs, apid) == 0 <==> forall k :: 0 <= k < |ctxs| ==> ctxs[k].apid != apid
  {
    if ctxs != [] {
      CountZero(ctxs[1..], apid);
      assert forall k :: 1 <= k < |ctxs| ==> ctxs[k] == ctxs[1..][k - 1];
      if forall k :: 0 <= k < |ctxs| ==> ctxs[k].apid != apid {
        assert ctxs[0].apid != apid;
      }
      if CountOf(ctxs, apid) == 0 {
        assert forall k :: 0 <= k < |ctxs[1..]| ==> ctxs[1..][k].apid != apid;
      }
    }
  }

  lemma {:induction false} FindAppIsMember(apps: seq<Application>, apid: Id)
    ensures FindApp(apps, apid) < |apps| <==> apid in Apids(apps)
  {
  }

  // ---- what is kept

  /** The tables agree in everything but handles, process ids, descriptions and levels. */
  predicate SameApids(a: seq<Application>, b: seq<Application>) {
    |a| == |b| && forall i :: 0 <= i < |a| ==> a[i].apid == b[i].apid && a[i].count == b[i].count
  }

  predicate SameCtids(a: seq<Context>, b: seq<Context>) {
    |a| == |b| && forall k :: 0 <= k < |a| ==> a[k].apid == b[k].apid && a[k].ctid == b[k].ctid
  }

  lemma {:induction false} SameIdsIndexed(t: Tables, u: Tables)
    requires Indexed(t) && SameApids(t.apps, u.apps) && SameCtids(t.ctxs, u.ctxs)
    ensures Indexed(u)
  {
    forall i | 0 <= i < |u.apps| ensures u.apps[i].count == CountOf(u.ctxs, u.apps[i].apid) {
      CountSameIds(t.ctxs, u.ctxs, t.apps[i].apid);
    }
    assert Apids(t.apps) == Apids(u.apps) by {
      forall i | 0 <= i < |t.apps| ensures t.apps[i].apid in Apids(u.apps) && u.apps[i].apid in Apids(t.apps) {
        assert u.apps[i].apid == t.apps[i].apid;
      }
    }
  }

  lemma {:induction false} AcceptIndexed(t: Tables, fd: int)
    requires Indexed(t)
    ensures Indexed(Accept(t, fd))
  {
    SameIdsIndexed(t, Accept(t, fd));
  }

  lemma {:induction false} ResetIndexed(t: Tables, i: nat)
    requires Indexed(t) && i < |t.apps|
    ensures Indexed(ResetHandle(t, i))
  {
    SameIdsIndexed(t, ResetHandle(t, i));
  }

  lemma {:induction false} AttachSameIds(t: Tables, i: nat, pid: int, description: seq<Byte>, h: int, owns: bool)
    requires i < |t.apps|
    ensures var u := Attach(t, i, pid, description, h, owns); SameApids(t.apps, u.apps) && SameCtids(t.ctxs, u.ctxs)
  {
  }

  lemma {:induction false} AddAppIndexed(t: Tables, apid: Id, pid: int, description: seq<Byte>, h: int, owns: bool)
    requires Indexed(t)
    ensures Indexed(AddApp(t, apid, pid, description, h, owns))
  {
    hide Indexed, Attach, SameApids, SameCtids;
    if apid != NO_ID {
      var i := FindApp(t.apps, apid);
      if i < |t.apps| {
        AttachSameIds(t, i, pid, description, h, owns);
        SameIdsIndexed(t, Attach(t, i, pid, description, h, owns));
      } else {
        NewAppIndexed(t, apid);
        var s := AppendedApp(t, apid);
        var u := Attach(s, i, pid, description, h, owns);
        AttachSameIds(s, i, pid, description, h, owns);
        InsertSameIds(s.apps, u.apps);
        SameIdsIndexed(SortedIn(s), SortedIn(u));
      }
    }
  }

  lemma {:induction false} PlaceSameIds(a: seq<Application>, b: seq<Application>, k: int)
    requires SameApids(a, b)
    ensures Place(a, AppKey, k) == Place(b, AppKey, k)
  {
    if a != [] && AppKey(a[0]) < k {
      PlaceSameIds(a[1..], b[1..], k);
    }
  }

  lemma {:induction false} InsertSameIds(a: seq<Application>, b: seq<Application>)
    requires SameApids(a, b) && a != []
    ensures var n := |a| - 1; SameApids(Insert(a[..n], AppKey, a[n]), Insert(b[..n], AppKey, b[n]))
  {
    var n := |a| - 1;
    PlaceSameIds(a[..n], b[..n], AppKey(a[n]));
  }

  lemma {:induction false} ApidsInserted(apps: seq<Application>, x: Application)
    ensures Apids(Insert(apps, AppKey, x)) == Apids(apps) + {x.apid}
  {
    var p := Place(apps, AppKey, AppKey(x));
    var r := Insert(apps, AppKey, x);
    assert r[p] == x;
    forall j | 0 <= j < |apps| ensures apps[j].apid in Apids(r) {
      assert apps[j] == r[if j < p then j else j + 1];
    }
    forall i | 0 <= i < |r| ensures r[i].apid in Apids(apps) + {x.apid} {
      assert r[i] == if i < p then apps[i] else if i == p then x else apps[i - 1];
    }
  }

  lemma {:induction false} NewAppIndexed(t: Tables, apid: Id)
    requires Indexed(t) && FindApp(t.apps, apid) == |t.apps|
    ensures Indexed(SortedIn(AppendedApp(t, apid)))
  {
    var x := NewApplication(apid);
    assert AppendedApp(t, apid).apps[..|t.apps|] == t.apps;
    forall i | 0 <= i < |t.apps| ensures AppKey(t.apps[i]) != AppKey(x) {
      NumInjective(t.apps[i].apid, apid);
    }
    InsertStrict(t.apps, AppKey, x);
    ApidsInserted(t.apps, x);
    FindAppIsMember(t.apps, apid);
    CountZero(t.ctxs, apid);
    var p := Place(t.apps, AppKey, AppKey(x));
    var r := Insert(t.apps, AppKey, x);
    forall i | 0 <= i < |r| ensures r[i].count == CountOf(t.ctxs, r[i].apid) {
      assert r[i] == if i < p then t.apps[i] else if i == p then x else t.apps[i - 1];
    }
  }

  // ---- contexts

  lemma {:induction false} BumpedKeeps(apps: seq<Application>, a: nat, d: int)
    requires a < |apps| && SortedApps(apps)
    ensures SortedApps(Bumped(apps, a, d))
    ensures Apids(Bumped(apps, a, d)) == Apids(apps)
    ensures forall i :: 0 <= i < |apps| && i != a ==> apps[i].apid != apps[a].apid
  {
    var r := Bumped(apps, a, d);
    forall i | 0 <= i < |apps| ensures apps[i].apid in Apids(r) && r[i].apid in Apids(apps) {
      assert r[i].apid == apps[i].apid;
    }
    forall i | 0 <= i < |apps| && i != a ensures apps[i].apid != apps[a].apid {
      assert AppKey(apps[i]) != AppKey(apps[a]);
    }
  }

  lemma {:induction false} AddCtxIndexed(t: Tables, loaded: bool, apid: Id, ctid: Id, level: int, status: int, pos: int, handle: int, description: seq<Byte>)
    requires Indexed(t)
    ensures Indexed(AddCtx(t, loaded, apid, ctid, level, status, pos, handle, description))
  {
    if CanAddCtx(t, apid, ctid, level, status) {
      var k := FindCtx(t.ctxs, apid, ctid);
      var u := AddCtx(t, loaded, apid, ctid, level, status, pos, handle, description);
      if k < |t.ctxs| {
        var c := Fill(t.ctxs[k], false, loaded, level, status, pos, handle, description);
        assert u == t.(ctxs := t.ctxs[k := c]);
        SameIdsIndexed(t, u);
      } else {
        var c := Fill(NewContext(apid, ctid), true, loaded, level, status, pos, handle, description);
        assert u == Tables(Bumped(t.apps, FindApp(t.apps, apid), 1), Insert(t.ctxs, CtxKey, c));
        NewCtxIndexed(t, c);
      }
    }
  }

  lemma {:induction false} NewCtxSorted(ctxs: seq<Context>, c: Context)
    requires SortedCtxs(ctxs) && FindCtx(ctxs, c.apid, c.ctid) == |ctxs|
    ensures SortedCtxs(Insert(ctxs, CtxKey, c))
  {
    forall k | 0 <= k < |ctxs| ensures CtxKey(ctxs[k]) != CtxKey(c) {
      CtxNumOrder(ctxs[k].apid, ctxs[k].ctid, c.apid, c.ctid);
    }
    InsertStrict(ctxs, CtxKey, c);
  }

  lemma {:induction false} HomedInserted(ctxs: seq<Context>, c: Context, ids: set<Id>)
    requires Homed(ctxs, ids) && c.apid in ids
    ensures Homed(Insert(ctxs, CtxKey, c), ids)
  {
  }

  lemma {:induction false} InsertedCounts(apps: seq<Application>, ctxs: seq<Context>, c: Context, a: nat)
    requires SortedApps(apps) && CountsRight(apps, ctxs) && a < |apps| && apps[a].apid == c.apid
    ensures CountsRight(Bumped(apps, a, 1), Insert(ctxs, CtxKey, c))
  {
    hide CountOf, Insert, SortedApps;
    var r := Bumped(apps, a, 1);
    BumpedKeeps(apps, a, 1);
    forall i | 0 <= i < |r| ensures r[i].count == CountOf(Insert(ctxs, CtxKey, c), r[i].apid) {
      CountInserted(ctxs, c, r[i].apid);
    }
  }

  lemma {:induction false} NewCtxIndexed(t: Tables, c: Context)
    requires Indexed(t) && FindApp(t.apps, c.apid) < |t.apps| && FindCtx(t.ctxs, c.apid, c.ctid) == |t.ctxs|
    ensures Indexed(Tables(Bumped(t.apps, FindApp(t.apps, c.apid), 1), Insert(t.ctxs, CtxKey, c)))
  {
    hide SortedApps, SortedCtxs, CountsRight, Homed, Apids, Insert, FindCtx, Bumped;
    var a := FindApp(t.apps, c.apid);
    BumpedKeeps(t.apps, a, 1);
    NewCtxSorted(t.ctxs, c);
    FindAppIsMember(t.apps, c.apid);
    HomedInserted(t.ctxs, c, Apids(t.apps));
    InsertedCounts(t.apps, t.ctxs, c, a);
  }

  lemma {:induction false} RemovedCounts(apps: seq<Application>, ctxs: seq<Context>, k: nat, a: nat)
    requires SortedApps(apps) && CountsRight(apps, ctxs) && k < |ctxs| && a < |apps| && apps[a].apid == ctxs[k].apid
    ensures CountsRight(Bumped(apps, a, -1), Removed(ctxs, k))
  {
    var r := Bumped(apps, a, -1);
    BumpedKeeps(apps, a, -1);
    forall i | 0 <= i < |r| ensures r[i].count == CountOf(Removed(ctxs, k), r[i].apid) {
      CountRemoved(ctxs, k, r[i].apid);
    }
  }

  lemma {:induction false} RemovedCtxKeeps(ctxs: seq<Context>, k: nat, ids: set<Id>)
    requires SortedCtxs(ctxs) && Homed(ctxs, ids) && k < |ctxs|
    ensures SortedCtxs(Removed(ctxs, k)) && Homed(Removed(ctxs, k), ids)
  {
  }

  lemma {:induction false} DelCtxIndexed(t: Tables, k: nat)
    requires Indexed(t) && k < |t.ctxs|
    ensures Indexed(DelCtx(t, k))
  {
    var a := FindApp(t.apps, t.ctxs[k].apid);
    FindAppIsMember(t.apps, t.ctxs[k].apid);
    BumpedKeeps(t.apps, a, -1);
    RemovedCounts(t.apps, t.ctxs, k, a);
    RemovedCtxKeeps(t.ctxs, k, Apids(t.apps));
    assert DelCtx(t, k) == Tables(Bumped(t.apps, a, -1), Removed(t.ctxs, k));
  }

  lemma {:induction false} ClearCtxsIndexed(t: Tables)
    requires Indexed(t)
    ensures Indexed(ClearCtxs(t))
  {
  }

  lemma {:induction false} ApidsRemoved(apps: seq<Application>, i: nat)
    requires i < |apps|
    ensures Apids(apps) <= Apids(Removed(apps, i)) + {apps[i].apid}
  {
    forall j | 0 <= j < |apps| ensures apps[j].apid in Apids(Removed(apps, i)) + {apps[i].apid} {
      if j != i {
        assert Removed(apps, i)[if j < i then j else j - 1] == apps[j];
      }
    }
  }

  lemma {:induction false} DelAppIndexed(t: Tables, i: nat)
    requires Indexed(t) && i < |t.apps| && t.apps[i].count == 0
    ensures Indexed(DelApp(t, i))
  {
    ResetIndexed(t, i);
    CutAppIndexed(ResetHandle(t, i), i);
  }

  lemma {:induction false} CutAppIndexed(u: Tables, i: nat)
    requires Indexed(u) && i < |u.apps| && u.apps[i].count == 0
    ensures Indexed(u.(apps := Removed(u.apps, i)))
  {
    ApidsRemoved(u.apps, i);
    CountZero(u.ctxs, u.apps[i].apid);
    var r := Removed(u.apps, i);
    forall j | 0 <= j < |r| ensures r[j].count == CountOf(u.ctxs, r[j].apid) {
      assert r[j] == u.apps[if j < i then j else j + 1];
    }
  }
}

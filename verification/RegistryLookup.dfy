/** The two tables as finite maps: what each operation does to the entry it names, and that it leaves
    every other entry alone. */
module RegistryLookup {
  import opened Ids
  import opened Sorting
  import opened Registry
  import opened RegistryIndex
  import opened RegistryHandles
  import opened RegistryTable

  datatype Found<T> = Nothing | Just(value: T)

  function AppOf(apps: seq<Application>, apid: Id): Found<Application> {
    var i := FindApp(apps, apid);
    if i < |apps| then Just(apps[i]) else Nothing
  }

  function CtxOf(ctxs: seq<Context>, apid: Id, ctid: Id): Found<Context> {
    var k := FindCtx(ctxs, apid, ctid);
    if k < |ctxs| then Just(ctxs[k]) else Nothing
  }

  predicate IsCtx(c: Context, apid: Id, ctid: Id) {
    c.apid == apid && c.ctid == ctid
  }

  /** In a sorted table an entry is what its identifier stands for. */
  lemma {:induction false} AppOfMember(apps: seq<Application>, apid: Id, x: Application)
    requires SortedApps(apps)
    ensures AppOf(apps, apid) == Just(x) <==> x in apps && x.apid == apid
  {
    if x in apps && x.apid == apid {
      var i :| 0 <= i < |apps| && apps[i] == x;
      FoundApp(apps, apid, i);
    }
  }

  lemma {:induction false} CtxOfMember(ctxs: seq<Context>, apid: Id, ctid: Id, x: Context)
    requires SortedCtxs(ctxs)
    ensures CtxOf(ctxs, apid, ctid) == Just(x) <==> x in ctxs && IsCtx(x, apid, ctid)
  {
    if x in ctxs && IsCtx(x, apid, ctid) {
      var k :| 0 <= k < |ctxs| && ctxs[k] == x;
      FoundCtx(ctxs, apid, ctid, k);
    }
  }

  lemma {:induction false} SameApp(a: seq<Application>, b: seq<Application>, apid: Id)
    requires SortedApps(a) && SortedApps(b)
    requires forall x: Application :: x.apid == apid ==> (x in a <==> x in b)
    ensures AppOf(a, apid) == AppOf(b, apid)
  {
    if AppOf(a, apid).Just? {
      AppOfMember(a, apid, AppOf(a, apid).value);
      AppOfMember(b, apid, AppOf(a, apid).value);
    } else if AppOf(b, apid).Just? {
      AppOfMember(a, apid, AppOf(b, apid).value);
      AppOfMember(b, apid, AppOf(b, apid).value);
    }
  }

  lemma {:induction false} SameCtx(a: seq<Context>, b: seq<Context>, apid: Id, ctid: Id)
    requires SortedCtxs(a) && SortedCtxs(b)
    requires forall x: Context :: IsCtx(x, apid, ctid) ==> (x in a <==> x in b)
    ensures CtxOf(a, apid, ctid) == CtxOf(b, apid, ctid)
  {
    if CtxOf(a, apid, ctid).Just? {
      CtxOfMember(a, apid, ctid, CtxOf(a, apid, ctid).value);
      CtxOfMember(b, apid, ctid, CtxOf(a, apid, ctid).value);
    } else if CtxOf(b, apid, ctid).Just? {
      CtxOfMember(a, apid, ctid, CtxOf(b, apid, ctid).value);
      CtxOfMember(b, apid, ctid, CtxOf(b, apid, ctid).value);
    }
  }

  lemma {:induction false} InsertMembers<T>(s: seq<T>, key: T -> int, x: T, y: T)
    ensures y in Insert(s, key, x) <==> y in s || y == x
  {
    var p := Place(s, key, key(x));
    assert s == s[..p] + s[p..];
  }

  lemma {:induction false} RemovedMembers<T>(s: seq<T>, k: nat, y: T)
    requires k < |s|
    ensures y in s <==> y in Removed(s, k) || y == s[k]
  {
    assert s == s[..k] + [s[k]] + s[k + 1..];
  }

  lemma {:induction false} OthersMembers(ctxs: seq<Context>, apid: Id, y: Context)
    ensures y in Others(ctxs, apid) <==> y in ctxs && y.apid != apid
  {
    if ctxs != [] {
      OthersMembers(ctxs[1..], apid, y);
      assert ctxs == [ctxs[0]] + ctxs[1..];
    }
  }

  // ---- contexts

  /** What a registration leaves in the entry: the description, position and connection are replaced; the
      levels too unless a loaded configuration knew the context; the storage level stays. */
  predicate RegisteredAs(was: Found<Context>, c: Context, loaded: bool, level: int, status: int, pos: int,
                         handle: int, description: seq<Byte>) {
    && c.pos == pos && c.handle == handle && c.description == description
    && (c.predefined <==> handle == 0)
    && (if was.Just? && loaded then c.level == was.value.level && c.status == was.value.status
        else c.level == level && c.status == status)
    && c.storage == if was.Just? then was.value.storage else 0
  }

  lemma {:induction false} AddCtxNamed(t: Tables, loaded: bool, apid: Id, ctid: Id, level: int, status: int, pos: int, handle: int, description: seq<Byte>)
    requires Indexed(t) && CanAddCtx(t, apid, ctid, level, status)
    ensures var u := AddCtx(t, loaded, apid, ctid, level, status, pos, handle, description);
      var was := CtxOf(t.ctxs, apid, ctid); var now := CtxOf(u.ctxs, apid, ctid);
      && now.Just? && RegisteredAs(was, now.value, loaded, level, status, pos, handle, description)
  {
    AddCtxIndexed(t, loaded, apid, ctid, level, status, pos, handle, description);
    var u := AddCtx(t, loaded, apid, ctid, level, status, pos, handle, description);
    var k := FindCtx(t.ctxs, apid, ctid);
    if k < |t.ctxs| {
      FoundCtx(u.ctxs, apid, ctid, k);
    } else {
      var c := Fill(NewContext(apid, ctid), true, loaded, level, status, pos, handle, description);
      InsertMembers(t.ctxs, CtxKey, c, c);
      CtxOfMember(u.ctxs, apid, ctid, c);
    }
  }

  /** The terms on which a context is registered: its identifiers are there, its application is registered, and
      level and trace status are in their ranges, both of which begin at -1. */
  predicate Acceptable(apps: seq<Application>, apid: Id, ctid: Id, level: int, status: int) {
    && apid != Id4(0, 0, 0, 0) && ctid != Id4(0, 0, 0, 0)
    && -1 <= level <= 6 && -1 <= status <= 1
    && exists i :: 0 <= i < |apps| && apps[i].apid == apid
  }

  lemma {:induction false} AcceptableIff(t: Tables, apid: Id, ctid: Id, level: int, status: int)
    ensures CanAddCtx(t, apid, ctid, level, status) <==> Acceptable(t.apps, apid, ctid, level, status)
  {
    var a := FindApp(t.apps, apid);
    assert a < |t.apps| ==> t.apps[a].apid == apid;
  }

  /** A registration is taken, whatever the context is, if and only if its terms are met: a new context is in the
      table afterwards, and a known one holds what was registered where it did not hold it already. Otherwise
      nothing changes. */
  lemma {:induction false} RegisteredIff(t: Tables, loaded: bool, apid: Id, ctid: Id, level: int, status: int, pos: int, handle: int, description: seq<Byte>)
    requires Indexed(t)
    ensures var u := AddCtx(t, loaded, apid, ctid, level, status, pos, handle, description);
      var was := CtxOf(t.ctxs, apid, ctid); var now := CtxOf(u.ctxs, apid, ctid);
      var ok := apid != Id4(0, 0, 0, 0) && ctid != Id4(0, 0, 0, 0) && -1 <= level <= 6 && -1 <= status <= 1
                && exists i :: 0 <= i < |t.apps| && t.apps[i].apid == apid;
      && (ok ==> now.Just? && RegisteredAs(was, now.value, loaded, level, status, pos, handle, description))
      && (!ok ==> u == t)
      && (was.Nothing? ==> (now.Just? <==> ok))
      && (was.Just? && !RegisteredAs(was, was.value, loaded, level, status, pos, handle, description) ==>
            (now.Just? && RegisteredAs(was, now.value, loaded, level, status, pos, handle, description) <==> ok))
  {
    AcceptableIff(t, apid, ctid, level, status);
    if CanAddCtx(t, apid, ctid, level, status) {
      AddCtxNamed(t, loaded, apid, ctid, level, status, pos, handle, description);
    }
    hide Indexed, RegisteredAs, CtxOf, CanAddCtx;
  }

  /** Registering a context changes no other context. */
  lemma {:induction false} AddCtxOthers(t: Tables, loaded: bool, apid: Id, ctid: Id, level: int, status: int, pos: int, handle: int, description: seq<Byte>, b: Id, d: Id)
    requires Indexed(t) && !(b == apid && d == ctid)
    ensures CtxOf(AddCtx(t, loaded, apid, ctid, level, status, pos, handle, description).ctxs, b, d) == CtxOf(t.ctxs, b, d)
  {
    AddCtxIndexed(t, loaded, apid, ctid, level, status, pos, handle, description);
    var u := AddCtx(t, loaded, apid, ctid, level, status, pos, handle, description);
    if CanAddCtx(t, apid, ctid, level, status) {
      var k := FindCtx(t.ctxs, apid, ctid);
      if k < |t.ctxs| {
        forall x: Context | IsCtx(x, b, d) ensures x in t.ctxs <==> x in u.ctxs {
          RemovedMembers(t.ctxs, k, x);
          RemovedMembers(u.ctxs, k, x);
          assert Removed(t.ctxs, k) == Removed(u.ctxs, k);
        }
      } else {
        var c := Fill(NewContext(apid, ctid), true, loaded, level, status, pos, handle, description);
        forall x: Context | IsCtx(x, b, d) ensures x in t.ctxs <==> x in u.ctxs {
          InsertMembers(t.ctxs, CtxKey, c, x);
        }
      }
      SameCtx(t.ctxs, u.ctxs, b, d);
    }
  }

  /** Applications keep everything but the counter of the one that gained a context. */
  lemma {:induction false} AddCtxApps(t: Tables, loaded: bool, apid: Id, ctid: Id, level: int, status: int, pos: int, handle: int, description: seq<Byte>, b: Id)
    requires Indexed(t) && AppOf(t.apps, b).Just?
    ensures var u := AddCtx(t, loaded, apid, ctid, level, status, pos, handle, description); var a := AppOf(t.apps, b).value;
      AppOf(u.apps, b) == Just(a.(count := a.count +
        if b == apid && CanAddCtx(t, apid, ctid, level, status) && CtxOf(t.ctxs, apid, ctid).Nothing? then 1 else 0))
  {
    hide Indexed, Fill, Insert, LevelOk, FindApp, FindCtx;
    var u := AddCtx(t, loaded, apid, ctid, level, status, pos, handle, description);
    if u.apps != t.apps {
      FindAppBumped(t.apps, FindApp(t.apps, apid), 1, b);
    }
  }

  lemma {:induction false} RemovedCtxOf(ctxs: seq<Context>, k: nat, b: Id, d: Id)
    requires SortedCtxs(ctxs) && k < |ctxs|
    ensures CtxOf(Removed(ctxs, k), b, d) == if IsCtx(ctxs[k], b, d) then Nothing else CtxOf(ctxs, b, d)
  {
    var r := Removed(ctxs, k);
    assert SortedCtxs(r);
    if IsCtx(ctxs[k], b, d) {
      forall j | 0 <= j < |r| ensures !IsCtx(r[j], b, d) {
        assert r[j] == ctxs[if j < k then j else j + 1];
        assert CtxKey(r[j]) != CtxKey(ctxs[k]);
      }
    } else {
      hide SortedCtxs, CtxOf;
      forall x: Context | IsCtx(x, b, d) ensures x in ctxs <==> x in r {
        RemovedMembers(ctxs, k, x);
      }
      SameCtx(ctxs, r, b, d);
    }
  }

  /** Deleting a context deletes that one and no other, and takes one off its application's counter. */
  lemma {:induction false} DelCtxLookup(t: Tables, k: nat, b: Id, d: Id)
    requires Indexed(t) && k < |t.ctxs|
    ensures CtxOf(DelCtx(t, k).ctxs, b, d) == if IsCtx(t.ctxs[k], b, d) then Nothing else CtxOf(t.ctxs, b, d)
    ensures AppOf(t.apps, b).Just? ==> var a := AppOf(t.apps, b).value;
      AppOf(DelCtx(t, k).apps, b) == Just(a.(count := a.count - if b == t.ctxs[k].apid then 1 else 0))
  {
    hide SortedApps, SortedCtxs, CountsRight, Homed, Removed, FindCtx;
    RemovedCtxOf(t.ctxs, k, b, d);
    var a := FindApp(t.apps, t.ctxs[k].apid);
    if a < |t.apps| {
      FindAppBumped(t.apps, a, -1, b);
    }
  }

  // ---- applications

  lemma {:induction false} RemovedAppOf(apps: seq<Application>, i: nat, b: Id)
    requires SortedApps(apps) && i < |apps|
    ensures AppOf(Removed(apps, i), b) == if apps[i].apid == b then Nothing else AppOf(apps, b)
  {
    var r := Removed(apps, i);
    assert SortedApps(r);
    if apps[i].apid == b {
      forall j | 0 <= j < |r| ensures r[j].apid != b {
        assert r[j] == apps[if j < i then j else j + 1];
        assert AppKey(r[j]) != AppKey(apps[i]);
      }
    } else {
      hide SortedApps, AppOf;
      forall x: Application | x.apid == b ensures x in apps <==> x in r {
        RemovedMembers(apps, i, x);
      }
      SameApp(apps, r, b);
    }
  }

  lemma {:induction false} OthersCtxOf(ctxs: seq<Context>, apid: Id, b: Id, d: Id)
    requires SortedCtxs(ctxs) && SortedCtxs(Others(ctxs, apid))
    ensures CtxOf(Others(ctxs, apid), b, d) == if b == apid then Nothing else CtxOf(ctxs, b, d)
  {
    var r := Others(ctxs, apid);
    if b == apid {
      forall k | 0 <= k < |r| ensures r[k].apid != apid {
        OthersMembers(ctxs, apid, r[k]);
      }
    } else {
      hide SortedCtxs, CtxOf;
      forall x: Context | IsCtx(x, b, d) ensures x in ctxs <==> x in r {
        OthersMembers(ctxs, apid, x);
      }
      SameCtx(ctxs, r, b, d);
    }
  }

  /** Unregistering deletes one application and all of its contexts and changes no other entry. */
  lemma {:induction false} UnregisterLookup(t: Tables, apid: Id, b: Id, d: Id)
    requires Indexed(t) && Owned(t) && FindApp(t.apps, apid) < |t.apps|
    ensures var u := Unregister(t, apid);
      && AppOf(u.apps, b) == (if b == apid then Nothing else AppOf(t.apps, b))
      && CtxOf(u.ctxs, b, d) == (if b == apid then Nothing else CtxOf(t.ctxs, b, d))
  {
    hide SortedApps, SortedCtxs, CountsRight, Homed, Others, FindCtx, AppsOwn, CtxsOwn;
    UnregisterExact(t, apid);
    UnregisterKeepsHandles(t, apid);
    RemovedAppOf(t.apps, FindApp(t.apps, apid), b);
    OthersCtxOf(t.ctxs, apid, b, d);
  }

  /** The entry gets a new connection. */
  predicate Takes(a: Application, pid: int) {
    pid != 0 && (a.handle == FD_INIT || a.pid != pid)
  }

  /** The entry loses the connection it had, for another process has its identifier now. */
  predicate Drops(a: Application, pid: int) {
    a.pid != pid && a.handle != FD_INIT
  }

  /** What registering the application `a` again does to another one. */
  function AppAfter(a: Application, pid: int, h: int, x: Application): Application {
    if Takes(a, pid) && x.handle == h then x.(handle := FD_INIT) else x
  }

  function CtxAfter(a: Application, pid: int, h: int, c: Context): Context {
    if (Drops(a, pid) && c.handle == a.handle) || (Takes(a, pid) && c.handle == h) then c.(handle := FD_INIT) else c
  }

  /** What it leaves in its own entry: the process and the connection that was obtained, unless the process is
      the one that is connected already, or there is none. */
  predicate AttachedAs(a: Application, r: Application, pid: int, description: seq<Byte>, h: int, owns: bool) {
    && r.apid == a.apid && r.count == a.count && r.description == description && r.pid == pid
    && if Takes(a, pid) then r.handle == h && r.owns == owns
       else if Drops(a, pid) then r.handle == FD_INIT && !r.owns
       else r.handle == a.handle && r.owns == a.owns
  }

  lemma {:induction false} AttachEntries(t: Tables, i: nat, pid: int, description: seq<Byte>, h: int, owns: bool)
    requires i < |t.apps|
    ensures var u := Attach(t, i, pid, description, h, owns); var a := t.apps[i];
      && AttachedAs(a, u.apps[i], pid, description, h, owns)
      && (forall j :: 0 <= j < |t.apps| && j != i ==> u.apps[j] == AppAfter(a, pid, h, t.apps[j]))
      && (forall k :: 0 <= k < |t.ctxs| ==> u.ctxs[k] == CtxAfter(a, pid, h, t.ctxs[k]))
  {
  }

  lemma {:induction false} FindAppSame(a: seq<Application>, b: seq<Application>, apid: Id)
    requires |a| == |b| && forall j :: 0 <= j < |a| ==> a[j].apid == b[j].apid
    ensures FindApp(a, apid) == FindApp(b, apid)
  {
  }

  lemma {:induction false} FindCtxSame(a: seq<Context>, b: seq<Context>, apid: Id, ctid: Id)
    requires SameCtids(a, b)
    ensures FindCtx(a, apid, ctid) == FindCtx(b, apid, ctid)
  {
  }

  /** The entry before the registration: the one found, or a new one. */
  function Before(apps: seq<Application>, apid: Id): Application {
    if AppOf(apps, apid).Just? then AppOf(apps, apid).value else NewApplication(apid)
  }

  /** What registering leaves of another application's lookup. */
  predicate AppLookup(was: Found<Application>, now: Found<Application>, a: Application, pid: int, h: int) {
    now == if was.Nothing? then Nothing else Just(AppAfter(a, pid, h, was.value))
  }

  predicate CtxLookup(was: Found<Context>, now: Found<Context>, a: Application, pid: int, h: int) {
    now == if was.Nothing? then Nothing else Just(CtxAfter(a, pid, h, was.value))
  }

  lemma {:induction false} AttachLookup(t: Tables, i: nat, pid: int, description: seq<Byte>, h: int, owns: bool, b: Id, d: Id)
    requires i < |t.apps| && FindApp(t.apps, t.apps[i].apid) == i
    ensures var u := Attach(t, i, pid, description, h, owns); var a := t.apps[i];
      && AppOf(u.apps, a.apid).Just? && AttachedAs(a, AppOf(u.apps, a.apid).value, pid, description, h, owns)
      && (b != a.apid ==> AppLookup(AppOf(t.apps, b), AppOf(u.apps, b), a, pid, h))
      && CtxLookup(CtxOf(t.ctxs, b, d), CtxOf(u.ctxs, b, d), a, pid, h)
  {
    AttachSameIds(t, i, pid, description, h, owns);
    AttachEntries(t, i, pid, description, h, owns);
    var u := Attach(t, i, pid, description, h, owns);
    FindAppSame(t.apps, u.apps, t.apps[i].apid);
    FindAppSame(t.apps, u.apps, b);
    FindCtxSame(t.ctxs, u.ctxs, b, d);
    hide Attach, AttachedAs, Takes, Drops, FindApp, FindCtx;
  }

  /** Sorting the table in which the last entry is new changes no lookup. */
  lemma {:induction false} SortedInLookup(t: Tables, b: Id)
    requires t.apps != [] && SortedApps(SortedIn(t).apps)
    requires forall i, j :: 0 <= i < j < |t.apps| ==> t.apps[i].apid != t.apps[j].apid
    ensures AppOf(SortedIn(t).apps, b) == AppOf(t.apps, b)
  {
    var n := |t.apps| - 1;
    var r := SortedIn(t).apps;
    var i := FindApp(t.apps, b);
    assert t.apps == t.apps[..n] + [t.apps[n]];
    if i < |t.apps| {
      InsertMembers(t.apps[..n], AppKey, t.apps[n], t.apps[i]);
      AppOfMember(r, b, t.apps[i]);
    } else if AppOf(r, b).Just? {
      var x := AppOf(r, b).value;
      AppOfMember(r, b, x);
      InsertMembers(t.apps[..n], AppKey, t.apps[n], x);
      assert false;
    }
  }

  lemma {:induction false} AppendedLookup(t: Tables, apid: Id, b: Id)
    requires FindApp(t.apps, apid) == |t.apps|
    ensures var s := AppendedApp(t, apid);
      && FindApp(s.apps, apid) == |t.apps|
      && (b != apid ==> AppOf(s.apps, b) == AppOf(t.apps, b))
  {
    var s := AppendedApp(t, apid);
    assert forall j :: 0 <= j < |t.apps| ==> s.apps[j] == t.apps[j];
    assert s.apps[|t.apps|].apid == apid;
  }

  lemma {:induction false} AddNewLookup(t: Tables, apid: Id, pid: int, description: seq<Byte>, h: int, owns: bool, b: Id, d: Id)
    requires Indexed(t) && apid != NO_ID && FindApp(t.apps, apid) == |t.apps|
    ensures var u := AddApp(t, apid, pid, description, h, owns); var a := NewApplication(apid);
      && AppOf(u.apps, apid).Just? && AttachedAs(a, AppOf(u.apps, apid).value, pid, description, h, owns)
      && (b != apid ==> AppLookup(AppOf(t.apps, b), AppOf(u.apps, b), a, pid, h))
      && CtxLookup(CtxOf(t.ctxs, b, d), CtxOf(u.ctxs, b, d), a, pid, h)
  {
    AddAppIndexed(t, apid, pid, description, h, owns);
    AppendedLookup(t, apid, b);
    NewAppOwnedIds(t, apid);
    var n := |t.apps|;
    var s := AppendedApp(t, apid);
    AttachLookup(s, n, pid, description, h, owns, b, d);
    AttachSameIds(s, n, pid, description, h, owns);
    var u := Attach(s, n, pid, description, h, owns);
    hide Attach, AttachedAs, AppLookup, CtxLookup;
    assert AddApp(t, apid, pid, description, h, owns) == SortedIn(u);
    SortedInLookup(u, apid);
    SortedInLookup(u, b);
  }

  lemma {:induction false} NewAppOwnedIds(t: Tables, apid: Id)
    requires Indexed(t) && FindApp(t.apps, apid) == |t.apps|
    ensures var s := AppendedApp(t, apid).apps; forall i, j :: 0 <= i < j < |s| ==> s[i].apid != s[j].apid
  {
    DistinctApids(t.apps);
  }

  /** Registering an application: its entry holds what was registered, every other application and every
      context keeps its entry but for a connection that was taken or given up. */
  lemma {:induction false} AddAppLookup(t: Tables, apid: Id, pid: int, description: seq<Byte>, h: int, owns: bool, b: Id, d: Id)
    requires Indexed(t) && apid != NO_ID
    ensures var u := AddApp(t, apid, pid, description, h, owns); var a := Before(t.apps, apid);
      && AppOf(u.apps, apid).Just? && AttachedAs(a, AppOf(u.apps, apid).value, pid, description, h, owns)
      && (b != apid ==> AppLookup(AppOf(t.apps, b), AppOf(u.apps, b), a, pid, h))
      && CtxLookup(CtxOf(t.ctxs, b, d), CtxOf(u.ctxs, b, d), a, pid, h)
  {
    hide Attach, AttachedAs, AppLookup, CtxLookup;
    if FindApp(t.apps, apid) < |t.apps| {
      AttachLookup(t, FindApp(t.apps, apid), pid, description, h, owns, b, d);
    } else {
      AddNewLookup(t, apid, pid, description, h, owns, b, d);
    }
  }
}

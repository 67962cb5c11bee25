/** Who owns which descriptor. */
module RegistryHandles {
  import opened Ids
  import opened Sorting
  import opened Registry

  predicate HandleOk(h: int) {
    h == FD_INIT || h >= FD_MINIMUM
  }

  /** No two applications share a connection. */
  predicate AppsOwn(apps: seq<Application>) {
    && (forall i :: 0 <= i < |apps| ==> HandleOk(apps[i].handle))
    && (forall i, j :: 0 <= i < |apps| && 0 <= j < |apps| && apps[i].handle == apps[j].handle != FD_INIT ==>
          apps[i].apid == apps[j].apid)
  }

  /** A context has no connection, was loaded from a file, or uses the connection of its own application. */
  predicate CtxsOwn(apps: seq<Application>, ctxs: seq<Context>) {
    forall i, k :: 0 <= i < |apps| && 0 <= k < |ctxs| && apps[i].apid == ctxs[k].apid ==>
      ctxs[k].handle == FD_INIT || ctxs[k].handle == 0 || ctxs[k].handle == apps[i].handle
  }

  predicate Owned(t: Tables) {
    AppsOwn(t.apps) && CtxsOwn(t.apps, t.ctxs)
  }

  lemma {:induction false} AcceptOwned(t: Tables, fd: int)
    requires Owned(t)
    ensures Owned(Accept(t, fd))
  {
  }

  lemma {:induction false} ResetOwned(t: Tables, i: nat)
    requires Indexed(t) && Owned(t) && i < |t.apps|
    ensures Owned(ResetHandle(t, i))
  {
    DistinctApids(t.apps);
  }

  lemma {:induction false} DistinctApids(apps: seq<Application>)
    requires SortedApps(apps)
    ensures forall i, j :: 0 <= i < |apps| && 0 <= j < |apps| && i != j ==> apps[i].apid != apps[j].apid
  {
    forall i, j | 0 <= i < |apps| && 0 <= j < |apps| && i != j ensures apps[i].apid != apps[j].apid {
      assert AppKey(apps[i]) != AppKey(apps[j]);
    }
  }

  predicate Distinct(apps: seq<Application>) {
    forall i, j :: 0 <= i < |apps| && 0 <= j < |apps| && i != j ==> apps[i].apid != apps[j].apid
  }

  lemma {:induction false} AttachOwned(t: Tables, i: nat, pid: int, description: seq<Byte>, h: int, owns: bool)
    requires Owned(t) && Distinct(t.apps) && i < |t.apps| && HandleOk(h)
    ensures Owned(Attach(t, i, pid, description, h, owns))
  {
    var t1 := t.(apps := t.apps[i := t.apps[i].(description := description)]);
    var t2 :=
      if t1.apps[i].pid == pid then t1
      else
        var u := ResetHandle(t1, i);
        u.(apps := u.apps[i := u.apps[i].(pid := 0)]);
    assert Owned(t2);
    if t2.apps[i].handle == FD_INIT {
      TakeOver(t2, i, h);
    }
  }

  /** A connection is given to one application after it was taken from everybody. */
  lemma {:induction false} TakeOver(t: Tables, i: nat, h: int)
    requires Owned(t) && Distinct(t.apps) && i < |t.apps| && HandleOk(h) && t.apps[i].handle == FD_INIT
    ensures var u := Accept(t, h);
      forall a: Application :: a.apid == t.apps[i].apid && a.handle == h ==> Owned(u.(apps := u.apps[i := a]))
  {
  }

  lemma {:induction false} NoContextYet(t: Tables, apid: Id)
    requires Indexed(t) && FindApp(t.apps, apid) == |t.apps|
    ensures forall k :: 0 <= k < |t.ctxs| ==> t.ctxs[k].apid != apid
  {
    FindAppIsMember(t.apps, apid);
  }

  /** An application without contexts and without a connection joins. */
  lemma {:induction false} JoinOwned(apps: seq<Application>, ctxs: seq<Context>, x: Application)
    requires AppsOwn(apps) && CtxsOwn(apps, ctxs) && Distinct(apps) && x.handle == FD_INIT
    requires forall i :: 0 <= i < |apps| ==> apps[i].apid != x.apid
    requires forall k :: 0 <= k < |ctxs| ==> ctxs[k].apid != x.apid
    ensures AppsOwn(apps + [x]) && CtxsOwn(apps + [x], ctxs) && Distinct(apps + [x])
  {
  }

  lemma {:induction false} NewAppOwned(t: Tables, apid: Id)
    requires Indexed(t) && Owned(t) && FindApp(t.apps, apid) == |t.apps|
    ensures Owned(AppendedApp(t, apid)) && Distinct(AppendedApp(t, apid).apps)
  {
    DistinctApids(t.apps);
    NoContextYet(t, apid);
    JoinOwned(t.apps, t.ctxs, NewApplication(apid));
  }

  /** Where the entry at index i of the sorted table stood before the last one was moved to place p. */
  function Origin(n: nat, p: nat, i: nat): (r: nat)
    ensures i <= n && p <= n ==> r <= n
  {
    if i < p then i else if i == p then n else i - 1
  }

  /** r holds entries of apps only. */
  predicate Rearranged(apps: seq<Application>, r: seq<Application>, n: nat, p: nat) {
    |r| == |apps| == n + 1 && p <= n && forall i :: 0 <= i <= n ==> r[i] == apps[Origin(n, p, i)]
  }

  lemma {:induction false} RearrangedAppsOwn(apps: seq<Application>, r: seq<Application>, n: nat, p: nat)
    requires AppsOwn(apps) && Rearranged(apps, r, n, p)
    ensures AppsOwn(r)
  {
    forall i, j | 0 <= i < |r| && 0 <= j < |r| && r[i].handle == r[j].handle != FD_INIT ensures r[i].apid == r[j].apid {
      assert r[i] == apps[Origin(n, p, i)] && r[j] == apps[Origin(n, p, j)];
    }
  }

  lemma {:induction false} RearrangedCtxsOwn(apps: seq<Application>, r: seq<Application>, n: nat, p: nat, ctxs: seq<Context>)
    requires CtxsOwn(apps, ctxs) && Rearranged(apps, r, n, p)
    ensures CtxsOwn(r, ctxs)
  {
    forall i, k | 0 <= i < |r| && 0 <= k < |ctxs| && r[i].apid == ctxs[k].apid
      ensures ctxs[k].handle == FD_INIT || ctxs[k].handle == 0 || ctxs[k].handle == r[i].handle
    {
      assert r[i] == apps[Origin(n, p, i)];
    }
  }

  /** Sorting moves entries but changes none. */
  lemma {:induction false} SortedInOwned(t: Tables)
    requires t.apps != [] && Owned(t)
    ensures Owned(SortedIn(t))
  {
    var n := |t.apps| - 1;
    var p := Place(t.apps[..n], AppKey, AppKey(t.apps[n]));
    var r := SortedIn(t).apps;
    assert Rearranged(t.apps, r, n, p) by {
      hide AppsOwn, CtxsOwn;
    }
    hide SortedIn, AppsOwn, CtxsOwn, Rearranged;
    RearrangedAppsOwn(t.apps, r, n, p);
    RearrangedCtxsOwn(t.apps, r, n, p, t.ctxs);
  }

  lemma {:induction false} AddNewOwned(t: Tables, apid: Id, pid: int, description: seq<Byte>, h: int, owns: bool)
    requires Indexed(t) && Owned(t) && HandleOk(h) && FindApp(t.apps, apid) == |t.apps|
    ensures Owned(SortedIn(Attach(AppendedApp(t, apid), |t.apps|, pid, description, h, owns)))
  {
    NewAppOwned(t, apid);
    AttachOwned(AppendedApp(t, apid), |t.apps|, pid, description, h, owns);
    SortedInOwned(Attach(AppendedApp(t, apid), |t.apps|, pid, description, h, owns));
  }

  lemma {:induction false} AddAppOwned(t: Tables, apid: Id, pid: int, description: seq<Byte>, h: int, owns: bool)
    requires Indexed(t) && Owned(t) && HandleOk(h)
    ensures Owned(AddApp(t, apid, pid, description, h, owns))
  {
    if FindApp(t.apps, apid) < |t.apps| {
      DistinctApids(t.apps);
      AttachOwned(t, FindApp(t.apps, apid), pid, description, h, owns);
    } else {
      AddNewOwned(t, apid, pid, description, h, owns);
    }
  }

  /** The handles a context may be registered with. */
  predicate CtxHandleOk(t: Tables, apid: Id, handle: int) {
    handle == 0 || (FindApp(t.apps, apid) < |t.apps| && handle == t.apps[FindApp(t.apps, apid)].handle)
  }

  lemma {:induction false} AddCtxOwned(t: Tables, loaded: bool, apid: Id, ctid: Id, level: int, status: int, pos: int, handle: int, description: seq<Byte>)
    requires Indexed(t) && Owned(t) && CtxHandleOk(t, apid, handle)
    ensures Owned(AddCtx(t, loaded, apid, ctid, level, status, pos, handle, description))
  {
    if CanAddCtx(t, apid, ctid, level, status) {
      DistinctApids(t.apps);
      var k := FindCtx(t.ctxs, apid, ctid);
      if k == |t.ctxs| {
        var c := Fill(NewContext(apid, ctid), true, loaded, level, status, pos, handle, description);
        NewCtxOwned(t, FindApp(t.apps, apid), c);
      }
    }
  }

  lemma {:induction false} NewCtxOwned(t: Tables, a: nat, c: Context)
    requires Owned(t) && Distinct(t.apps) && a < |t.apps| && t.apps[a].apid == c.apid
    requires c.handle == 0 || c.handle == t.apps[a].handle
    ensures Owned(Tables(Bumped(t.apps, a, 1), Insert(t.ctxs, CtxKey, c)))
  {
    var p := Place(t.ctxs, CtxKey, CtxKey(c));
    var r := Insert(t.ctxs, CtxKey, c);
    forall k | 0 <= k < |r| ensures r[k] == if k < p then t.ctxs[k] else if k == p then c else t.ctxs[k - 1] {
    }
  }

  lemma {:induction false} DelCtxOwned(t: Tables, k: nat)
    requires Owned(t) && k < |t.ctxs|
    ensures Owned(DelCtx(t, k))
  {
    var r := Removed(t.ctxs, k);
    forall j | 0 <= j < |r| ensures r[j] == t.ctxs[if j < k then j else j + 1] {
    }
  }

  lemma {:induction false} DelAppOwned(t: Tables, i: nat)
    requires Indexed(t) && Owned(t) && i < |t.apps|
    ensures Owned(DelApp(t, i))
  {
    ResetOwned(t, i);
    var u := ResetHandle(t, i);
    var r := Removed(u.apps, i);
    forall j | 0 <= j < |r| ensures r[j] == u.apps[if j < i then j else j + 1] {
    }
  }

  /** Whoever has the connection that a context uses is the context's own application. */
  lemma {:induction false} ContextReachesOwner(t: Tables, k: nat, j: nat)
    requires Indexed(t) && Owned(t) && k < |t.ctxs| && j < |t.apps|
    requires t.ctxs[k].handle >= FD_MINIMUM && t.apps[j].handle == t.ctxs[k].handle
    ensures t.apps[j].apid == t.ctxs[k].apid
  {
    assert t.ctxs[k].apid in Apids(t.apps);
    var i :| 0 <= i < |t.apps| && t.apps[i].apid == t.ctxs[k].apid;
    assert t.ctxs[k].handle == t.apps[i].handle;
  }

  /** After an application was unregistered, no context of another application lost its connection. */
  lemma {:induction false} UnregisterKeepsHandles(t: Tables, apid: Id)
    requires Indexed(t) && Owned(t) && FindApp(t.apps, apid) < |t.apps|
    ensures Unregister(t, apid).ctxs == Others(t.ctxs, apid)
  {
    var h := t.apps[FindApp(t.apps, apid)].handle;
    var rest := Others(t.ctxs, apid);
    forall k | 0 <= k < |rest| && h != FD_INIT ensures rest[k].handle != h {
      OthersFrom(t.ctxs, apid, k);
      var m :| 0 <= m < |t.ctxs| && t.ctxs[m] == rest[k] && rest[k].apid != apid;
      if rest[k].handle == h {
        ContextReachesOwner(t, m, FindApp(t.apps, apid));
      }
    }
  }

  lemma {:induction false} OthersFrom(ctxs: seq<Context>, apid: Id, k: nat)
    requires k < |Others(ctxs, apid)|
    ensures var c := Others(ctxs, apid)[k]; c.apid != apid && exists m :: 0 <= m < |ctxs| && ctxs[m] == c
  {
    if ctxs[0].apid == apid {
      OthersFrom(ctxs[1..], apid, k);
      var m :| 0 <= m < |ctxs[1..]| && ctxs[1..][m] == Others(ctxs, apid)[k];
      assert ctxs[m + 1] == ctxs[1..][m];
    } else if k > 0 {
      OthersFrom(ctxs[1..], apid, k - 1);
      var m :| 0 <= m < |ctxs[1..]| && ctxs[1..][m] == Others(ctxs[1..], apid)[k - 1];
      assert ctxs[m + 1] == ctxs[1..][m];
    }
  }
}

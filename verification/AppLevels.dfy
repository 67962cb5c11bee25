/** An application asks for one log level and one trace status for all of its contexts. */
module AppLevels {
  import opened Ids
  import opened Registry
  import opened RegistryIndex
  import opened RegistryHandles
  import opened RegistryTable
  import opened LevelScan

  /** Set both values of one context. They stay if the application has no connection, unlike those that a
      log client sets; otherwise they are set back unless the application took the message. */
  function SendBoth(t: Tables, k: nat, level: int, status: int, out: Outcome): (r: Tables)
    requires k < |t.ctxs|
    ensures |r.apps| == |t.apps| && |r.ctxs| == |t.ctxs|
  {
    var c := t.ctxs[k];
    if c.handle < FD_MINIMUM || out == Sent then t.(ctxs := t.ctxs[k := c.(level := level, status := status)])
    else if out == Refused then t
    else
      var a := FindApp(t.apps, c.apid);
      if a < |t.apps| then ResetHandle(t, a) else t
  }

  /** All contexts of the application from k on, one after the other. */
  function AppScan(t: Tables, apid: Id, level: int, status: int, outs: nat -> Outcome, k: nat): (r: Tables)
    requires k <= |t.ctxs|
    ensures |r.apps| == |t.apps| && |r.ctxs| == |t.ctxs|
    decreases |t.ctxs| - k
  {
    if k == |t.ctxs| then t
    else
      AppScan(if t.ctxs[k].apid == apid then SendBoth(t, k, level, status, outs(k)) else t,
              apid, level, status, outs, k + 1)
  }

  // ---- what is kept

  lemma {:induction false} SendBothSame(t: Tables, k: nat, level: int, status: int, out: Outcome)
    requires k < |t.ctxs|
    ensures var u := SendBoth(t, k, level, status, out); SameApids(t.apps, u.apps) && SameCtids(t.ctxs, u.ctxs)
  {
    hide FindApp;
  }

  lemma {:induction false} SendBothKeeps(t: Tables, k: nat, level: int, status: int, out: Outcome)
    requires Indexed(t) && Owned(t) && k < |t.ctxs|
    ensures Indexed(SendBoth(t, k, level, status, out)) && Owned(SendBoth(t, k, level, status, out))
  {
    SendBothSame(t, k, level, status, out);
    SameIdsIndexed(t, SendBoth(t, k, level, status, out));
    var a := FindApp(t.apps, t.ctxs[k].apid);
    if a < |t.apps| {
      ResetOwned(t, a);
    }
    hide Indexed, ResetHandle, FindApp;
  }

  lemma {:induction false} AppScanKeeps(t: Tables, apid: Id, level: int, status: int, outs: nat -> Outcome, k: nat)
    requires Indexed(t) && Owned(t) && k <= |t.ctxs|
    ensures Indexed(AppScan(t, apid, level, status, outs, k)) && Owned(AppScan(t, apid, level, status, outs, k))
    decreases |t.ctxs| - k
  {
    hide Indexed, Owned, SendBoth;
    if k < |t.ctxs| {
      SendBothKeeps(t, k, level, status, outs(k));
      AppScanKeeps(if t.ctxs[k].apid == apid then SendBoth(t, k, level, status, outs(k)) else t,
                   apid, level, status, outs, k + 1);
    }
  }

  // ---- what it does

  /** The connection of the application broke at one of its contexts from i on, before j. */
  predicate BrokeIn(t: Tables, apid: Id, outs: nat -> Outcome, i: nat, j: nat)
    requires j <= |t.ctxs|
  {
    exists m :: i <= m < j && t.ctxs[m].apid == apid && t.ctxs[m].handle >= FD_MINIMUM && outs(m) == Broken
  }

  /** What becomes of a context when those from i on are visited. */
  function CtxAfter(t: Tables, apid: Id, level: int, status: int, outs: nat -> Outcome, i: nat, k: nat): Context
    requires k < |t.ctxs|
  {
    var c := t.ctxs[k];
    if c.apid != apid then c
    else
      var d := if k >= i && (c.handle < FD_MINIMUM || outs(k) == Sent || BrokeIn(t, apid, outs, i, k))
        then c.(level := level, status := status) else c;
      if c.handle >= FD_MINIMUM && BrokeIn(t, apid, outs, i, |t.ctxs|) then d.(handle := FD_INIT) else d
  }

  lemma {:induction false} BrokeStep(t: Tables, apid: Id, outs: nat -> Outcome, i: nat, j: nat)
    requires i < j <= |t.ctxs|
    ensures BrokeIn(t, apid, outs, i, j) <==>
      (t.ctxs[i].apid == apid && t.ctxs[i].handle >= FD_MINIMUM && outs(i) == Broken) || BrokeIn(t, apid, outs, i + 1, j)
  {
  }

  /** Nothing breaks where no context of the application has a connection. */
  lemma {:induction false} BrokeNowhere(t: Tables, apid: Id, outs: nat -> Outcome, i: nat, j: nat)
    requires j <= |t.ctxs| && forall m :: 0 <= m < |t.ctxs| && t.ctxs[m].apid == apid ==> t.ctxs[m].handle < FD_MINIMUM
    ensures !BrokeIn(t, apid, outs, i, j)
  {
  }

  lemma {:induction false} BrokeSame(t: Tables, u: Tables, apid: Id, outs: nat -> Outcome, i: nat, j: nat)
    requires j <= |t.ctxs| == |u.ctxs|
    requires forall m :: i <= m < j ==> u.ctxs[m].apid == t.ctxs[m].apid && u.ctxs[m].handle == t.ctxs[m].handle
    ensures BrokeIn(t, apid, outs, i, j) <==> BrokeIn(u, apid, outs, i, j)
  {
  }

  /** A broken connection is taken from the application's contexts, and from those only. */
  lemma {:induction false} BrokenBoth(t: Tables, i: nat, level: int, status: int)
    requires Indexed(t) && Owned(t) && i < |t.ctxs| && t.ctxs[i].handle >= FD_MINIMUM
    ensures var u := SendBoth(t, i, level, status, Broken);
      forall k :: 0 <= k < |t.ctxs| ==>
        u.ctxs[k] == if t.ctxs[k].apid == t.ctxs[i].apid && t.ctxs[k].handle >= FD_MINIMUM
          then t.ctxs[k].(handle := FD_INIT) else t.ctxs[k]
  {
    var apid := t.ctxs[i].apid;
    FindAppIsMember(t.apps, apid);
    var a := FindApp(t.apps, apid);
    assert t.apps[a].handle == t.ctxs[i].handle;
    forall k | 0 <= k < |t.ctxs|
      ensures t.ctxs[k].handle == t.apps[a].handle <==> t.ctxs[k].apid == apid && t.ctxs[k].handle >= FD_MINIMUM
    {
      if t.ctxs[k].handle == t.apps[a].handle {
        ContextReachesOwner(t, k, a);
      }
    }
    hide Indexed, Owned, FindApp;
  }

  lemma {:induction false} AppScanAt(t: Tables, apid: Id, level: int, status: int, outs: nat -> Outcome, i: nat, k: nat)
    requires Indexed(t) && Owned(t) && i <= |t.ctxs| && k < |t.ctxs|
    ensures AppScan(t, apid, level, status, outs, i).ctxs[k] == CtxAfter(t, apid, level, status, outs, i, k)
    decreases |t.ctxs| - i
  {
    hide Indexed, Owned, BrokeIn, ResetHandle, FindApp;
    var n := |t.ctxs|;
    if i == n {
      assert !BrokeIn(t, apid, outs, i, n) by { EmptyRange(t, apid, outs, n); }
    } else {
      BrokeStep(t, apid, outs, i, n);
      if i < k {
        BrokeStep(t, apid, outs, i, k);
      } else {
        EmptyRange(t, apid, outs, k);
      }
      var c := t.ctxs[i];
      var u := if c.apid == apid then SendBoth(t, i, level, status, outs(i)) else t;
      SendBothKeeps(t, i, level, status, outs(i));
      AppScanAt(u, apid, level, status, outs, i + 1, k);
      if c.apid == apid && c.handle >= FD_MINIMUM && outs(i) == Broken {
        BrokenBoth(t, i, level, status);
        hide SendBoth;
        BrokeNowhere(u, apid, outs, i + 1, n);
        BrokeNowhere(u, apid, outs, i + 1, k);
      } else {
        BrokeSame(t, u, apid, outs, i + 1, n);
        BrokeSame(t, u, apid, outs, i + 1, k);
      }
    }
  }

  lemma {:induction false} EmptyRange(t: Tables, apid: Id, outs: nat -> Outcome, n: nat)
    requires n <= |t.ctxs|
    ensures forall i :: n <= i ==> !BrokeIn(t, apid, outs, i, n)
  {
  }

  /** Exactly the contexts of the application are set: those without a connection, those it took the message
      for, and all behind the one at which the connection broke; no other context changes. */
  lemma {:induction false} AppScanResult(t: Tables, apid: Id, level: int, status: int, outs: nat -> Outcome)
    requires Indexed(t) && Owned(t)
    ensures var u := AppScan(t, apid, level, status, outs, 0);
      forall k :: 0 <= k < |t.ctxs| ==> u.ctxs[k] == CtxAfter(t, apid, level, status, outs, 0, k)
  {
    hide CtxAfter, Indexed, Owned, AppScan;
    forall k | 0 <= k < |t.ctxs|
      ensures AppScan(t, apid, level, status, outs, 0).ctxs[k] == CtxAfter(t, apid, level, status, outs, 0, k)
    {
      AppScanAt(t, apid, level, status, outs, 0, k);
    }
  }

  // ---- through the counters

  lemma {:induction false} NoneOf(t: Tables, apid: Id, level: int, status: int, outs: nat -> Outcome, k: nat, m: nat)
    requires k <= m <= |t.ctxs| && forall j :: k <= j < m ==> t.ctxs[j].apid != apid
    ensures AppScan(t, apid, level, status, outs, k) == AppScan(t, apid, level, status, outs, m)
    decreases m - k
  {
    hide SendBoth;
    if k < m {
      NoneOf(t, apid, level, status, outs, k + 1, m);
    }
  }

  lemma {:induction false} SameNamed(t: Tables, u: Tables)
    requires SameApids(t.apps, u.apps) && SameCtids(t.ctxs, u.ctxs) && SortedApps(t.apps)
    ensures SortedApps(u.apps)
    ensures AppsNamed(t.apps) ==> AppsNamed(u.apps)
    ensures Named(t.ctxs) ==> Named(u.ctxs)
  {
    assert forall i :: 0 <= i < |t.apps| ==> u.apps[i].apid == t.apps[i].apid;
  }

  /** Both values are set first and set back if the application could not be told. */
  method SendBothLevels(list: UserList, k: nat, level: int, status: int, out: Outcome)
    requires SortedApps(list.applications) && AppsNamed(list.applications) && k < |list.contexts|
    requires list.contexts[k].apid != NO_ID
    modifies list`applications, list`contexts
    ensures list.View() == SendBoth(old(list.View()), k, level, status, out)
  {
    var c := list.contexts[k];
    list.contexts := list.contexts[k := c.(level := level, status := status)];
    if list.contexts[k].handle >= FD_MINIMUM && out != Sent {
      if out == Broken {
        var a := list.FindApplication(c.apid);
        if a >= 0 {
          list.ResetUserHandle(a);
        }
      }
      list.contexts := list.contexts[k := list.contexts[k].(level := c.level, status := c.status)];
    }
  }

  /** What a round needs of the tables, and keeps. */
  ghost predicate Ready(t: Tables) {
    SortedApps(t.apps) && AppsNamed(t.apps) && Named(t.ctxs)
  }

  lemma {:induction false} ReadyAfter(t: Tables, k: nat, level: int, status: int, out: Outcome)
    requires Ready(t) && k < |t.ctxs|
    ensures Ready(SendBoth(t, k, level, status, out))
    ensures SameCtids(t.ctxs, SendBoth(t, k, level, status, out).ctxs)
    ensures forall j :: 0 <= j < |t.ctxs| ==> SendBoth(t, k, level, status, out).ctxs[j].apid == t.ctxs[j].apid
    ensures SortedApps(t.apps) && AppsNamed(t.apps) && t.ctxs[k].apid != NO_ID
  {
    SendBothSame(t, k, level, status, out);
    SameNamed(t, SendBoth(t, k, level, status, out));
    NamedAt(t.ctxs, k);
  }

  lemma {:induction false} SameCtidsSelf(a: seq<Context>)
    ensures SameCtids(a, a)
  {
  }

  lemma {:induction false} SameCtidsTwice(a: seq<Context>, b: seq<Context>, c: seq<Context>)
    requires SameCtids(a, b) && SameCtids(b, c)
    ensures SameCtids(a, c)
  {
  }

  predicate OwnSlice(ctxs: seq<Context>, apid: Id, o: nat, m: nat)
    requires m <= |ctxs|
  {
    forall k :: o <= k < m ==> ctxs[k].apid == apid
  }

  /** The loop over the contexts of an application. */
  method SetSlice(list: UserList, apid: Id, level: int, status: int, outs: nat -> Outcome, offset: nat, n: nat)
    requires Ready(list.View()) && offset + n <= |list.contexts|
    requires OwnSlice(list.contexts, apid, offset, offset + n)
    modifies list`applications, list`contexts
    ensures SameCtids(old(list.contexts), list.contexts)
    ensures AppScan(old(list.View()), apid, level, status, outs, offset)
         == AppScan(list.View(), apid, level, status, outs, offset + n)
  {
    ghost var t := list.View();
    hide AppScan, SendBoth, Ready, SortedApps, AppsNamed, Named, SameCtids;
    SameCtidsSelf(t.ctxs);
    var i := 0;
    while i < n
      invariant 0 <= i <= n && SameCtids(t.ctxs, list.contexts) && Ready(list.View())
      invariant |list.contexts| == |t.ctxs| && forall k :: offset <= k < offset + n ==> list.contexts[k].apid == apid
      invariant AppScan(t, apid, level, status, outs, offset) == AppScan(list.View(), apid, level, status, outs, offset + i)
    {
      ghost var v := list.View();
      var k := offset + i;
      ReadyAfter(v, k, level, status, outs(k));
      OneMore(v, apid, level, status, outs, k);
      SendBothLevels(list, k, level, status, outs(k));
      SameCtidsTwice(t.ctxs, v.ctxs, list.contexts);
      i := i + 1;
    }
  }

  /** The application's slice is found through the counters. */
  method SetAppLevels(list: UserList, apid: Id, level: int, status: int, outs: nat -> Outcome)
    requires Indexed(list.View()) && Ready(list.View())
    modifies list`applications, list`contexts
    ensures list.View() == AppScan(old(list.View()), apid, level, status, outs, 0)
  {
    ghost var t := list.View();
    SortedView(t);
    hide Indexed, AppScan, SortedApps, SortedCtxs, AppsNamed, Named, FindApp, SameCtids, Ready, OwnSlice, Offset;
    var a := list.FindApplication(apid);
    if a < 0 {
      AbsentScan(t, apid, level, status, outs);
    } else {
      SliceOwn(t, apid, a);
      var offset := list.OffsetOf(a);
      var n := list.applications[a].count;
      SetSlice(list, apid, level, status, outs, offset, n);
      Concluded(t, list.View(), apid, a, offset, n, level, status, outs);
    }
  }

  lemma {:induction false} AbsentScan(t: Tables, apid: Id, level: int, status: int, outs: nat -> Outcome)
    requires Indexed(t) && Named(t.ctxs) && (apid == NO_ID || FindApp(t.apps, apid) == |t.apps|)
    ensures AppScan(t, apid, level, status, outs, 0) == t
  {
    NobodyOf(t, apid);
    hide *;
    NoneOf(t, apid, level, status, outs, 0, |t.ctxs|);
    ScanEnds(t, apid, level, status, outs);
  }

  lemma {:induction false} SliceOwn(t: Tables, apid: Id, a: nat)
    requires Indexed(t) && a < |t.apps| && t.apps[a].apid == apid
    ensures var o, n := Offset(t.apps, a), t.apps[a].count;
      0 <= o && 0 <= n && o + n <= |t.ctxs| && OwnSlice(t.ctxs, apid, o, o + n)
  {
    SliceExact(t, a);
  }

  /** Visiting the slice is visiting the table. */
  lemma {:induction false} SliceSuffices(t: Tables, u: Tables, apid: Id, o: nat, m: nat, level: int, status: int, outs: nat -> Outcome)
    requires o <= m <= |t.ctxs| == |u.ctxs|
    requires forall k :: 0 <= k < o ==> t.ctxs[k].apid != apid
    requires forall k :: m <= k < |u.ctxs| ==> u.ctxs[k].apid != apid
    requires AppScan(t, apid, level, status, outs, o) == AppScan(u, apid, level, status, outs, m)
    ensures AppScan(t, apid, level, status, outs, 0) == u
  {
    hide *;
    NoneOf(t, apid, level, status, outs, 0, o);
    NoneOf(u, apid, level, status, outs, m, |u.ctxs|);
    ScanEnds(u, apid, level, status, outs);
  }

  lemma {:induction false} Concluded(t: Tables, u: Tables, apid: Id, a: nat, o: nat, n: nat, level: int, status: int, outs: nat -> Outcome)
    requires Indexed(t) && a < |t.apps| && t.apps[a].apid == apid && SameCtids(t.ctxs, u.ctxs)
    requires o == Offset(t.apps, a) && n == t.apps[a].count && o + n <= |t.ctxs|
    requires AppScan(t, apid, level, status, outs, o) == AppScan(u, apid, level, status, outs, o + n)
    ensures AppScan(t, apid, level, status, outs, 0) == u
  {
    hide *;
    OutsideSlice(t, u, a);
    SliceSuffices(t, u, apid, o, o + n, level, status, outs);
  }

  lemma {:induction false} OutsideSlice(t: Tables, u: Tables, a: nat)
    requires Indexed(t) && a < |t.apps| && SameCtids(t.ctxs, u.ctxs)
    ensures var o, n := Offset(t.apps, a), t.apps[a].count;
      && |u.ctxs| == |t.ctxs|
      && (forall k :: 0 <= k < o ==> k < |t.ctxs| && t.ctxs[k].apid != t.apps[a].apid)
      && (forall k :: o + n <= k < |u.ctxs| ==> k >= 0 && u.ctxs[k].apid != t.apps[a].apid)
  {
    SliceExact(t, a);
    hide Indexed, Offset;
  }

  lemma {:induction false} NamedAt(ctxs: seq<Context>, k: nat)
    requires Named(ctxs) && k < |ctxs|
    ensures ctxs[k].apid != NO_ID
  {
  }

  lemma {:induction false} OneMore(t: Tables, apid: Id, level: int, status: int, outs: nat -> Outcome, k: nat)
    requires k < |t.ctxs| && t.ctxs[k].apid == apid
    ensures AppScan(t, apid, level, status, outs, k) == AppScan(SendBoth(t, k, level, status, outs(k)), apid, level, status, outs, k + 1)
  {
  }

  lemma {:induction false} ScanEnds(t: Tables, apid: Id, level: int, status: int, outs: nat -> Outcome)
    ensures AppScan(t, apid, level, status, outs, |t.ctxs|) == t
  {
  }

  lemma {:induction false} NobodyOf(t: Tables, apid: Id)
    requires Indexed(t) && Named(t.ctxs) && (apid == NO_ID || FindApp(t.apps, apid) == |t.apps|)
    ensures forall k :: 0 <= k < |t.ctxs| ==> t.ctxs[k].apid != apid
  {
    FindAppIsMember(t.apps, apid);
  }
}

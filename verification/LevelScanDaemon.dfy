/** The daemon's handling of a request to set log levels. */
module LevelScanDaemon {
  import opened Ids
  import opened Registry
  import opened RegistryIndex
  import opened RegistryTable
  import opened LevelScan

  lemma {:induction false} NoneTargeted(t: Tables, q: LevelRequest, level: int, outs: nat -> Outcome, k: nat, m: nat)
    requires k <= m <= |t.ctxs| && forall j :: k <= j < m ==> !Targets(q, t.ctxs[j])
    ensures FullScan(t, q, level, outs, k) == FullScan(t, q, level, outs, m)
    decreases m - k
  {
    hide Targets, SendLevel;
    if k < m {
      NoneTargeted(t, q, level, outs, k + 1, m);
    }
  }

  /** A request that names both identifiers, or none, is for one context at most. */
  lemma {:induction false} OneTarget(t: Tables, q: LevelRequest, level: int, outs: nat -> Outcome)
    requires SortedCtxs(t.ctxs) && !Single(q)
    ensures var k := FindCtx(t.ctxs, q.apid, q.ctid);
      FullScan(t, q, level, outs, 0) == if q.apid != NO_ID && k < |t.ctxs| then SendLevel(t, k, level, outs(k)) else t
  {
    var n := |t.ctxs|;
    var k := FindCtx(t.ctxs, q.apid, q.ctid);
    hide SendLevel, Fits;
    if q.apid == NO_ID || k == n {
      NoneTargeted(t, q, level, outs, 0, n);
    } else {
      NoneTargeted(t, q, level, outs, 0, k);
      var u := SendLevel(t, k, level, outs(k));
      SendLevelSameIds(t, k, level, outs(k));
      forall j | k < j < n ensures !Targets(q, u.ctxs[j]) {
        assert CtxKey(t.ctxs[k]) < CtxKey(t.ctxs[j]);
      }
      NoneTargeted(u, q, level, outs, k + 1, n);
    }
  }

  /** The level is set first and set back if the application did not get it. */
  method SendLogLevel(list: UserList, k: nat, level: int, out: Outcome) returns (ok: bool)
    requires SortedApps(list.applications) && AppsNamed(list.applications) && k < |list.contexts|
    requires list.contexts[k].apid != NO_ID
    modifies list`applications, list`contexts
    ensures list.View() == SendLevel(old(list.View()), k, level, out)
    ensures ok <==> old(list.contexts[k].handle) >= FD_MINIMUM && out == Sent
  {
    var oldLevel := list.contexts[k].level;
    list.contexts := list.contexts[k := list.contexts[k].(level := level)];
    ok := false;
    if list.contexts[k].handle >= FD_MINIMUM {
      ok := out == Sent;
      if out == Broken {
        var a := list.FindApplication(list.contexts[k].apid);
        if a >= 0 {
          list.ResetUserHandle(a);
        }
      }
    }
    if !ok {
      list.contexts := list.contexts[k := list.contexts[k].(level := oldLevel)];
    }
  }

  lemma {:induction false} SendLevelKeeps(t: Tables, k: nat, level: int, out: Outcome)
    requires SortedApps(t.apps) && AppsNamed(t.apps) && k < |t.ctxs| && Named(t.ctxs)
    ensures var u := SendLevel(t, k, level, out); SortedApps(u.apps) && AppsNamed(u.apps) && Named(u.ctxs)
  {
    var u := SendLevel(t, k, level, out);
    assert forall i :: 0 <= i < |t.apps| ==> u.apps[i].apid == t.apps[i].apid;
    SendLevelSameIds(t, k, level, out);
  }

  /** Compare each context with the pattern and stop early where the order of the table allows it. */
  method FindMultiple(list: UserList, app: bool, str: Id, len: nat, level: int, outs: nat -> Outcome)
    requires SortedApps(list.applications) && AppsNamed(list.applications) && Named(list.contexts) && len <= 4
    modifies list`applications, list`contexts
    ensures list.View() == EarlyScan(old(list.View()), Pattern(app, str, len), level, outs, 0)
  {
    hide SortedApps, AppsNamed, SendLevel, StrNCmp;
    ghost var p := Pattern(app, str, len);
    var count := 0;
    while count < |list.contexts|
      invariant 0 <= count <= |list.contexts|
      invariant SortedApps(list.applications) && AppsNamed(list.applications) && Named(list.contexts)
      invariant EarlyScan(old(list.View()), p, level, outs, 0) == EarlyScan(list.View(), p, level, outs, count)
    {
      var c := list.contexts[count];
      var ret := StrNCmp(Bytes(if app then c.apid else c.ctid), Bytes(str), len);
      if ret == 0 {
        SendLevelKeeps(list.View(), count, level, outs(count));
        var ok := SendLogLevel(list, count, level, outs(count));
      } else if ret > 0 && app {
        break;
      }
      count := count + 1;
    }
  }

  /** Choose between the patterns and the single context. */
  method ControlSetLogLevel(list: UserList, apid: Id, ctid: Id, level: int, outs: nat -> Outcome)
    requires Indexed(list.View()) && AppsNamed(list.applications) && Named(list.contexts)
    modifies list`applications, list`contexts
    ensures list.View() == FullScan(old(list.View()), LevelRequest(apid, ctid), level, outs, 0)
  {
    ghost var t := list.View();
    ghost var q := LevelRequest(apid, ctid);
    SortedView(t);
    hide Indexed;
    if Single(q) {
      EarlyIsFull(t, q, level, outs, 0);
    } else {
      OneTarget(t, q, level, outs);
    }
    hide SortedApps, SortedCtxs, AppsNamed, FullScan, EarlyScan, SendLevel, FindCtx;
    LengthZero(apid);
    LengthZero(ctid);
    var m, n := Length(apid), Length(ctid);
    if m != 0 && Bytes(apid)[m - 1] == STAR && n == 0 {
      FindMultiple(list, true, apid, m - 1, level, outs);
    } else if n != 0 && Bytes(ctid)[n - 1] == STAR && m == 0 {
      FindMultiple(list, false, ctid, n - 1, level, outs);
    } else if m != 0 && Bytes(apid)[m - 1] != STAR && n == 0 {
      FindMultiple(list, true, apid, 4, level, outs);
    } else if n != 0 && Bytes(ctid)[n - 1] != STAR && m == 0 {
      FindMultiple(list, false, ctid, 4, level, outs);
    } else {
      var k := list.FindContext(apid, ctid);
      if k >= 0 {
        var ok := SendLogLevel(list, k, level, outs(k));
      }
    }
  }

  lemma {:induction false} LengthZero(i: Id)
    ensures Length(i) == 0 <==> i == NO_ID
  {
  }
}

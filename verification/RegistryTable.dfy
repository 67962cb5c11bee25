/** The user list of the daemon: two growing tables that are searched, appended to, sorted and compacted. */
module RegistryTable {
  import opened Ids
  import opened Sorting
  import opened Registry
  import opened RegistryIndex

  const APPL_ALLOC_SIZE := 500
  const CONTEXT_ALLOC_SIZE := 1000

  /** What is allocated: nothing at first, then whole blocks with room beyond what is used. */
  predicate AppRoom(used: nat, capacity: nat) {
    (used == 0 && capacity == 0) || capacity >= (used / APPL_ALLOC_SIZE + 1) * APPL_ALLOC_SIZE
  }

  predicate CtxRoom(used: nat, capacity: nat) {
    (used == 0 && capacity == 0) || capacity >= (used / CONTEXT_ALLOC_SIZE + 1) * CONTEXT_ALLOC_SIZE
  }

  lemma {:induction false} RoomAfterRemoval(used: nat, capacity: nat)
    requires used > 0
    ensures AppRoom(used, capacity) ==> AppRoom(used - 1, capacity)
    ensures CtxRoom(used, capacity) ==> CtxRoom(used - 1, capacity)
  {
  }

  class UserList {
    var applications: seq<Application>
    var appCapacity: nat
    var contexts: seq<Context>
    var ctxCapacity: nat

    ghost function View(): Tables
      reads this
    {
      Tables(applications, contexts)
    }

    ghost predicate Room()
      reads this
    {
      AppRoom(|applications|, appCapacity) && CtxRoom(|contexts|, ctxCapacity)
    }

    constructor ()
      ensures View() == Tables([], []) && Room()
    {
      applications, appCapacity := [], 0;
      contexts, ctxCapacity := [], 0;
    }

    /** Search with the shortcuts for identifiers outside the range of the table. */
    method FindApplication(apid: Id) returns (i: int)
      requires SortedApps(applications)
      ensures apid == NO_ID ==> i == -1
      ensures apid != NO_ID ==> i == if FindApp(applications, apid) < |applications| then FindApp(applications, apid) else -1
    {
      if apid == NO_ID || |applications| == 0 {
        return -1;
      }
      var outside := OutsideRange(apid, applications[0].apid, applications[|applications| - 1].apid);
      if outside {
        OutsideApp(applications, apid);
        return -1;
      }
      i := Bsearch(applications, AppKey, Num(apid));
      if i >= 0 {
        NumInjective(apid, applications[i].apid);
        FoundApp(applications, apid, i);
      } else {
        AbsentApp(applications, apid);
      }
    }

    method FindContext(apid: Id, ctid: Id) returns (i: int)
      requires SortedCtxs(contexts)
      ensures apid == NO_ID || ctid == NO_ID ==> i == -1
      ensures apid != NO_ID && ctid != NO_ID ==>
        i == if FindCtx(contexts, apid, ctid) < |contexts| then FindCtx(contexts, apid, ctid) else -1
    {
      if apid == NO_ID || ctid == NO_ID || |contexts| == 0 {
        return -1;
      }
      var outside := OutsideRange(apid, contexts[0].apid, contexts[|contexts| - 1].apid);
      if outside {
        OutsideCtx(contexts, apid, ctid);
        return -1;
      }
      i := Bsearch(contexts, CtxKey, CtxNum(apid, ctid));
      if i >= 0 {
        CtxNumOrder(contexts[i].apid, contexts[i].ctid, apid, ctid);
        FoundCtx(contexts, apid, ctid, i);
      } else {
        AbsentCtx(contexts, apid, ctid);
      }
    }

    /** The comparison with the smallest and the greatest identifier, byte by byte. */
    method OutsideRange(apid: Id, first: Id, last: Id) returns (outside: bool)
      ensures outside <==> Num(apid) < Num(first) || Num(apid) > Num(last)
    {
      CompareIsNum(apid, first);
      CompareIsNum(apid, last);
      NumInjective(apid, last);
      outside := MemCmp(Bytes(apid), Bytes(first), 4) < 0 || MemCmp(Bytes(apid), Bytes(last), 4) > 0;
    }

    method InvalidateApplicationsFd(fd: int)
      modifies this`applications
      ensures applications == InvalidateApps(old(applications), fd)
    {
      var i := 0;
      while i < |applications|
        invariant 0 <= i <= |applications| == |old(applications)|
        invariant forall j :: 0 <= j < i ==> applications[j] == InvalidateApps(old(applications), fd)[j]
        invariant forall j :: i <= j < |applications| ==> applications[j] == old(applications)[j]
      {
        if applications[i].handle == fd {
          applications := applications[i := applications[i].(handle := FD_INIT)];
        }
        i := i + 1;
      }
    }

    method InvalidateContextsFd(fd: int)
      modifies this`contexts
      ensures contexts == InvalidateCtxs(old(contexts), fd)
    {
      var i := 0;
      while i < |contexts|
        invariant 0 <= i <= |contexts| == |old(contexts)|
        invariant forall j :: 0 <= j < i ==> contexts[j] == InvalidateCtxs(old(contexts), fd)[j]
        invariant forall j :: i <= j < |contexts| ==> contexts[j] == old(contexts)[j]
      {
        if contexts[i].handle == fd {
          contexts := contexts[i := contexts[i].(handle := FD_INIT)];
        }
        i := i + 1;
      }
    }

    method ResetUserHandle(i: nat)
      requires i < |applications|
      modifies this`applications, this`contexts
      ensures View() == ResetHandle(old(View()), i)
      ensures |applications| == |old(applications)| && |contexts| == |old(contexts)|
    {
      if applications[i].handle == FD_INIT {
        return;
      }
      InvalidateContextsFd(applications[i].handle);
      applications := applications[i := applications[i].(handle := FD_INIT, owns := false)];
    }

    /** The steps of a registration on the entry at index i. */
    method AttachAt(i: nat, pid: int, description: seq<Byte>, h: int, owns: bool)
      requires i < |applications|
      modifies this`applications, this`contexts
      ensures View() == Attach(old(View()), i, pid, description, h, owns)
    {
      applications := applications[i := applications[i].(description := description)];
      if applications[i].pid != pid {
        ResetUserHandle(i);
        applications := applications[i := applications[i].(pid := 0)];
      }
      if applications[i].handle == FD_INIT && pid != 0 {
        InvalidateApplicationsFd(h);
        InvalidateContextsFd(h);
        applications := applications[i := applications[i].(handle := h, owns := owns, pid := pid)];
      }
    }

    /** Make room for one more application. */
    method ReserveApplication()
      requires Room()
      modifies this`appCapacity
      ensures AppRoom(|applications| + 1, appCapacity) && |applications| < appCapacity
      ensures var n := |applications| + 1;
        appCapacity == if n % 500 == 0 then n + 500 else if old(appCapacity) == 0 then 500 else old(appCapacity)
    {
      if appCapacity == 0 {
        appCapacity := APPL_ALLOC_SIZE;
      }
      var n := |applications| + 1;
      if n % APPL_ALLOC_SIZE == 0 {
        // the n entries that are copied lie within the old block
        assert n <= appCapacity;
        appCapacity := (n / APPL_ALLOC_SIZE + 1) * APPL_ALLOC_SIZE;
      }
    }

    method AppendApplication(apid: Id, pid: int, description: seq<Byte>, h: int, owns: bool)
      requires Indexed(View()) && FindApp(applications, apid) == |applications|
      modifies this`applications, this`contexts
      ensures View() == SortedIn(Attach(AppendedApp(old(View()), apid), |old(applications)|, pid, description, h, owns))
      ensures |applications| == |old(applications)| + 1 && |contexts| == |old(contexts)|
    {
      hide Indexed, Attach, Insert, FindApp;
      ghost var before := View();
      var n := |applications|;
      applications := applications + [NewApplication(apid)];
      AttachAt(n, pid, description, h, owns);
      AttachSameIds(AppendedApp(before, apid), n, pid, description, h, owns);
      var sorted := Qsort(applications, AppKey);
      SortedByQsort(before, apid, applications, sorted);
      assert |sorted| == |applications| by {
        assert |multiset(sorted)| == |multiset(applications)|;
      }
      applications := sorted;
    }

    method AddNewApplication(apid: Id, pid: int, description: seq<Byte>, h: int, owns: bool)
      requires Indexed(View()) && Room() && FindApp(applications, apid) == |applications|
      modifies this
      ensures View() == SortedIn(Attach(AppendedApp(old(View()), apid), |old(applications)|, pid, description, h, owns))
      ensures Room()
    {
      hide Indexed, SortedIn, Attach, AppendedApp, AppRoom, CtxRoom, FindApp;
      ReserveApplication();
      AppendApplication(apid, pid, description, h, owns);
    }

    method AddApplication(apid: Id, pid: int, description: seq<Byte>, h: int, owns: bool)
      requires Indexed(View()) && Room()
      modifies this
      ensures View() == AddApp(old(View()), apid, pid, description, h, owns)
      ensures Indexed(View()) && Room()
      ensures old(AllNamed(View())) ==> AllNamed(View())
    {
      AddAppIndexed(View(), apid, pid, description, h, owns);
      if AllNamed(View()) {
        AddAppNames(View(), apid, pid, description, h, owns);
      }
      SortedView(View());
      hide AllNamed, Indexed, SortedApps, SortedIn, Attach, AppendedApp, FindApp, AppRoom, CtxRoom;
      if apid == NO_ID {
        return;
      }
      var i := FindApplication(apid);
      if i >= 0 {
        AttachAt(i, pid, description, h, owns);
      } else {
        AddNewApplication(apid, pid, description, h, owns);
      }
    }

    /** Make room for one more context. */
    method ReserveContext()
      requires Room()
      modifies this`ctxCapacity
      ensures CtxRoom(|contexts| + 1, ctxCapacity) && |contexts| < ctxCapacity
      ensures var n := |contexts| + 1;
        ctxCapacity == if n % 1000 == 0 then n + 1000 else if old(ctxCapacity) == 0 then 1000 else old(ctxCapacity)
    {
      if ctxCapacity == 0 {
        ctxCapacity := CONTEXT_ALLOC_SIZE;
      }
      var n := |contexts| + 1;
      if n % CONTEXT_ALLOC_SIZE == 0 {
        assert n <= ctxCapacity;
        ctxCapacity := (n / CONTEXT_ALLOC_SIZE + 1) * CONTEXT_ALLOC_SIZE;
      }
    }

    method AppendContext(c: Context)
      requires SortedCtxs(contexts) && FindCtx(contexts, c.apid, c.ctid) == |contexts|
      modifies this`contexts
      ensures contexts == Insert(old(contexts), CtxKey, c)
    {
      var sorted := Qsort(contexts + [c], CtxKey);
      ContextsByQsort(contexts, c, sorted);
      contexts := sorted;
    }

    method AppendNewContext(a: nat, c: Context)
      requires Room() && SortedCtxs(contexts) && FindCtx(contexts, c.apid, c.ctid) == |contexts| && a < |applications|
      modifies this
      ensures View() == Tables(Bumped(old(applications), a, 1), Insert(old(contexts), CtxKey, c))
      ensures Room()
    {
      hide CtxRoom, AppRoom, SortedCtxs, FindCtx;
      ReserveContext();
      InsertLength(contexts, c);
      AppendContext(c);
      applications := applications[a := applications[a].(count := applications[a].count + 1)];
    }

    method AddContext(loaded: bool, apid: Id, ctid: Id, level: int, status: int, pos: int, handle: int, description: seq<Byte>)
      returns (ok: bool)
      requires Indexed(View()) && Room()
      modifies this
      ensures View() == AddCtx(old(View()), loaded, apid, ctid, level, status, pos, handle, description)
      ensures ok <==>
        && apid != Id4(0, 0, 0, 0) && ctid != Id4(0, 0, 0, 0) && -1 <= level <= 6 && -1 <= status <= 1
        && exists i :: 0 <= i < |old(applications)| && old(applications)[i].apid == apid
      ensures Indexed(View()) && Room()
      ensures old(AllNamed(View())) ==> AllNamed(View())
    {
      AddCtxIndexed(View(), loaded, apid, ctid, level, status, pos, handle, description);
      if AllNamed(View()) {
        AddCtxNames(View(), loaded, apid, ctid, level, status, pos, handle, description);
      }
      SortedView(View());
      hide AllNamed, Indexed, SortedApps, SortedCtxs, Fill, Insert, NewContext, AppRoom, CtxRoom, Bumped;
      if apid == NO_ID || ctid == NO_ID || !LevelOk(level, status) {
        return false;
      }
      var a := FindApplication(apid);
      if a < 0 {
        return false;
      }
      assert applications[a].apid == apid;
      var k := FindContext(apid, ctid);
      if k >= 0 {
        contexts := contexts[k := Fill(contexts[k], false, loaded, level, status, pos, handle, description)];
      } else {
        AppendNewContext(a, Fill(NewContext(apid, ctid), true, loaded, level, status, pos, handle, description));
      }
      return true;
    }

    method DeleteContext(k: nat)
      requires Indexed(View()) && Room() && k < |contexts| && Named(contexts)
      modifies this
      ensures View() == DelCtx(old(View()), k)
      ensures Indexed(View()) && Room() && Named(contexts)
    {
      DelCtxIndexed(View(), k);
      SortedView(View());
      RoomAfterRemoval(|contexts|, ctxCapacity);
      NamedAfterRemoval(contexts, k);
      hide Indexed, SortedApps, SortedCtxs, AppRoom, CtxRoom, FindApp;
      var a := FindApplication(contexts[k].apid);
      hide Named;
      contexts := contexts[..k] + contexts[k + 1..];
      if a >= 0 {
        applications := applications[a := applications[a].(count := applications[a].count - 1)];
      }
    }

    method DeleteApplication(i: nat)
      requires Indexed(View()) && Room() && i < |applications| && applications[i].count == 0
      modifies this
      ensures View() == DelApp(old(View()), i)
      ensures Indexed(View()) && Room()
    {
      DelAppIndexed(View(), i);
      RoomAfterRemoval(|applications|, appCapacity);
      hide Indexed, ResetHandle, AppRoom, CtxRoom;
      ResetUserHandle(i);
      applications := applications[..i] + applications[i + 1..];
    }

    method ClearContexts()
      modifies this
      ensures View() == ClearCtxs(old(View())) && ctxCapacity == 0 && appCapacity == old(appCapacity)
    {
      contexts, ctxCapacity := [], 0;
      var i := 0;
      while i < |applications|
        invariant 0 <= i <= |applications| == |old(applications)|
        invariant contexts == [] && ctxCapacity == 0 && appCapacity == old(appCapacity)
        invariant forall j :: 0 <= j < i ==> applications[j] == old(applications)[j].(count := 0)
        invariant forall j :: i <= j < |applications| ==> applications[j] == old(applications)[j]
      {
        applications := applications[i := applications[i].(count := 0)];
        i := i + 1;
      }
    }

    method OffsetOf(a: nat) returns (offset: int)
      requires a <= |applications|
      ensures offset == Offset(applications, a)
    {
      offset := 0;
      var j := 0;
      while j < a
        invariant 0 <= j <= a && offset == Offset(applications, j)
      {
        offset := offset + applications[j].count;
        j := j + 1;
      }
    }

    /** The downward loop over n contexts from an offset. */
    method DeleteContextsDown(offset: nat, n: nat)
      requires Indexed(View()) && Room() && offset + n <= |contexts| && Named(contexts)
      modifies this
      ensures View() == DeleteDown(old(View()), offset, n)
      ensures Indexed(View()) && Room()
    {
      hide Indexed, AppRoom, CtxRoom, DelCtx, Named;
      var i := n - 1;
      while i >= 0
        invariant -1 <= i && offset + i < |contexts|
        invariant Indexed(View()) && Room() && Named(contexts)
        invariant DeleteDown(View(), offset, i + 1) == DeleteDown(old(View()), offset, n)
      {
        DeleteContext(offset + i);
        i := i - 1;
      }
    }

    /** The contexts of the application, found through the counters, then the application itself. */
    method UnregisterApplication(apid: Id)
      requires Indexed(View()) && Room() && Named(contexts) && apid != NO_ID
      modifies this
      ensures View() == Unregister(old(View()), apid)
      ensures Indexed(View()) && Room()
    {
      var a := FindApplication(apid);
      if a < 0 {
        return;
      }
      UnregisterExact(View(), apid);
      var offset := OffsetOf(a);
      var n := applications[a].count;
      DeletedAll(View(), apid, a, offset, n);
      DeleteContextsDown(offset, n);
      DeleteApplication(a);
    }
  }

  /** No application without an identifier. */
  predicate AppsNamed(apps: seq<Application>) {
    forall i :: 0 <= i < |apps| ==> apps[i].apid != NO_ID
  }

  /** No context without an application identifier. */
  predicate Named(ctxs: seq<Context>) {
    forall k :: 0 <= k < |ctxs| ==> ctxs[k].apid != NO_ID
  }

  predicate AllNamed(t: Tables) {
    AppsNamed(t.apps) && Named(t.ctxs)
  }

  // ---- the lemmas the methods use

  lemma {:induction false} SameIdsNamed(t: Tables, u: Tables)
    requires AllNamed(t) && SameApids(t.apps, u.apps) && SameCtids(t.ctxs, u.ctxs)
    ensures AllNamed(u)
  {
    assert forall i :: 0 <= i < |t.apps| ==> u.apps[i].apid == t.apps[i].apid;
  }

  lemma {:induction false} AppsNamedInserted(apps: seq<Application>, x: Application)
    requires AppsNamed(apps) && x.apid != NO_ID
    ensures AppsNamed(Insert(apps, AppKey, x))
  {
  }

  lemma {:induction false} NamedInserted(ctxs: seq<Context>, c: Context)
    requires Named(ctxs) && c.apid != NO_ID
    ensures Named(Insert(ctxs, CtxKey, c))
  {
  }

  lemma {:induction false} SortedInNamed(t: Tables)
    requires AllNamed(t) && t.apps != []
    ensures AllNamed(SortedIn(t))
  {
    var n := |t.apps| - 1;
    hide Insert;
    AppsNamedInserted(t.apps[..n], t.apps[n]);
  }

  /** Nothing is registered without an identifier. */
  lemma {:induction false} AddAppNames(t: Tables, apid: Id, pid: int, description: seq<Byte>, h: int, owns: bool)
    requires AllNamed(t)
    ensures AllNamed(AddApp(t, apid, pid, description, h, owns))
  {
    hide Attach, SortedIn, FindApp, AllNamed, SameApids, SameCtids;
    if apid != NO_ID {
      var i := FindApp(t.apps, apid);
      if i < |t.apps| {
        AttachSameIds(t, i, pid, description, h, owns);
        SameIdsNamed(t, Attach(t, i, pid, description, h, owns));
      } else {
        var s := AppendedApp(t, apid);
        AppendedNamed(t, apid);
        AttachSameIds(s, i, pid, description, h, owns);
        SameIdsNamed(s, Attach(s, i, pid, description, h, owns));
        SortedInNamed(Attach(s, i, pid, description, h, owns));
      }
    }
  }

  lemma {:induction false} AppendedNamed(t: Tables, apid: Id)
    requires AllNamed(t) && apid != NO_ID
    ensures AllNamed(AppendedApp(t, apid))
  {
  }

  lemma {:induction false} AddCtxNames(t: Tables, loaded: bool, apid: Id, ctid: Id, level: int, status: int, pos: int, handle: int, description: seq<Byte>)
    requires AllNamed(t)
    ensures AllNamed(AddCtx(t, loaded, apid, ctid, level, status, pos, handle, description))
  {
    if CanAddCtx(t, apid, ctid, level, status) {
      NamedInserted(t.ctxs, Fill(NewContext(apid, ctid), true, loaded, level, status, pos, handle, description));
      hide Insert, FindCtx, FindApp;
    }
  }

  lemma {:induction false} NamedAfterRemoval(ctxs: seq<Context>, k: nat)
    requires Named(ctxs) && k < |ctxs|
    ensures Named(Removed(ctxs, k))
  {
  }

  lemma {:induction false} InsertLength(ctxs: seq<Context>, c: Context)
    ensures |Insert(ctxs, CtxKey, c)| == |ctxs| + 1
  {
  }

  lemma {:induction false} SortedView(t: Tables)
    requires Indexed(t)
    ensures SortedApps(t.apps) && SortedCtxs(t.ctxs)
  {
  }

  lemma {:induction false} AbsentApp(apps: seq<Application>, apid: Id)
    requires forall i :: 0 <= i < |apps| ==> AppKey(apps[i]) != Num(apid)
    ensures FindApp(apps, apid) == |apps|
  {
  }

  lemma {:induction false} OutsideApp(apps: seq<Application>, apid: Id)
    requires SortedApps(apps) && apps != []
    requires Num(apid) < Num(apps[0].apid) || Num(apid) > Num(apps[|apps| - 1].apid)
    ensures FindApp(apps, apid) == |apps|
  {
  }

  lemma {:induction false} FoundApp(apps: seq<Application>, apid: Id, i: nat)
    requires SortedApps(apps) && i < |apps| && apps[i].apid == apid
    ensures FindApp(apps, apid) == i
  {
    var j := FindApp(apps, apid);
    assert j < i ==> AppKey(apps[j]) < AppKey(apps[i]);
  }

  lemma {:induction false} AbsentCtx(ctxs: seq<Context>, apid: Id, ctid: Id)
    requires forall k :: 0 <= k < |ctxs| ==> CtxKey(ctxs[k]) != CtxNum(apid, ctid)
    ensures FindCtx(ctxs, apid, ctid) == |ctxs|
  {
  }

  lemma {:induction false} OutsideCtx(ctxs: seq<Context>, apid: Id, ctid: Id)
    requires SortedCtxs(ctxs) && ctxs != []
    requires Num(apid) < Num(ctxs[0].apid) || Num(apid) > Num(ctxs[|ctxs| - 1].apid)
    ensures FindCtx(ctxs, apid, ctid) == |ctxs|
  {
    var k := FindCtx(ctxs, apid, ctid);
    if k < |ctxs| {
      ApidsSorted(ctxs, 0, k);
      ApidsSorted(ctxs, k, |ctxs| - 1);
    }
  }

  lemma {:induction false} FoundCtx(ctxs: seq<Context>, apid: Id, ctid: Id, i: nat)
    requires SortedCtxs(ctxs) && i < |ctxs| && ctxs[i].apid == apid && ctxs[i].ctid == ctid
    ensures FindCtx(ctxs, apid, ctid) == i
  {
    var j := FindCtx(ctxs, apid, ctid);
    assert j < i ==> CtxKey(ctxs[j]) < CtxKey(ctxs[i]);
  }

  /** Sorting the table with the new application at its end puts it in its place. */
  lemma {:induction false} SortedByQsort(t: Tables, apid: Id, apps: seq<Application>, sorted: seq<Application>)
    requires Indexed(t) && FindApp(t.apps, apid) == |t.apps|
    requires SameApids(AppendedApp(t, apid).apps, apps)
    requires Weak(sorted, AppKey) && multiset(sorted) == multiset(apps)
    ensures sorted == Insert(apps[..|t.apps|], AppKey, apps[|t.apps|])
  {
    var n := |t.apps|;
    var front, x := apps[..n], apps[n];
    assert apps == front + [x];
    forall i | 0 <= i < n ensures AppKey(front[i]) == AppKey(t.apps[i]) != AppKey(x) {
      NumInjective(t.apps[i].apid, apid);
    }
    SortLast(front, x, sorted, AppKey);
  }

  lemma {:induction false} ContextsByQsort(ctxs: seq<Context>, c: Context, sorted: seq<Context>)
    requires SortedCtxs(ctxs) && FindCtx(ctxs, c.apid, c.ctid) == |ctxs|
    requires Weak(sorted, CtxKey) && multiset(sorted) == multiset(ctxs + [c])
    ensures sorted == Insert(ctxs, CtxKey, c)
  {
    forall k | 0 <= k < |ctxs| ensures CtxKey(ctxs[k]) != CtxKey(c) {
      CtxNumOrder(ctxs[k].apid, ctxs[k].ctid, c.apid, c.ctid);
    }
    SortLast(ctxs, c, sorted, CtxKey);
  }

  lemma {:induction false} DeletedAll(t: Tables, apid: Id, a: nat, o: nat, n: nat)
    requires Indexed(t) && a == FindApp(t.apps, apid) < |t.apps| && o == Offset(t.apps, a) && n == t.apps[a].count
    requires o + n <= |t.ctxs|
    ensures DeleteDown(t, o, n).apps[a].count == 0
  {
    SliceExact(t, a);
    DeleteDownCuts(t, apid, a, o, n);
  }
}

/** Every sequence of registry operations. */
module RegistryRuns {
  import opened Ids
  import opened Registry
  import opened RegistryIndex
  import opened RegistryHandles
  import opened RegistryTable
  import opened RegistryLookup
  import opened LevelScan
  import opened AppLevels

  datatype Op =
    | Accepted(fd: int)                                      // a new connection got this descriptor
    | RegisterApp(apid: Id, pid: int, description: seq<Byte>, h: int, owns: bool)
    | RegisterCtx(apid: Id, ctid: Id, level: int, status: int, pos: int, description: seq<Byte>)
    | LoadCtx(apid: Id, ctid: Id, level: int, status: int, description: seq<Byte>)
    | UnregisterApp(apid: Id)
    | UnregisterCtx(apid: Id, ctid: Id)
    | BrokenPipe(apid: Id)                                   // sending to the application failed
    | SetLevel(apid: Id, ctid: Id, level: int, outs: nat -> Outcome)                  // a log client asks for it
    | SetLevels(apid: Id, level: int, status: int, outs: nat -> Outcome)              // an application does
    | ClearAll

  /** What a signed byte holds. Setting levels checks nothing else. */
  predicate IsInt8(x: int) {
    -128 <= x < 128
  }

  /** A handle obtained for an application is a failure or not one of the standard descriptors. */
  predicate OpOk(op: Op) {
    && (op.RegisterApp? ==> HandleOk(op.h))
    && (op.SetLevel? ==> IsInt8(op.level))
    && (op.SetLevels? ==> IsInt8(op.level) && IsInt8(op.status))
  }

  function Apply(t: Tables, loaded: bool, op: Op): Tables {
    match op
    case Accepted(fd) => Accept(t, fd)
    case RegisterApp(apid, pid, description, h, owns) => AddApp(t, apid, pid, description, h, owns)
    case RegisterCtx(apid, ctid, level, status, pos, description) =>
      var a := FindApp(t.apps, apid);
      if a == |t.apps| then t
      else AddCtx(t, loaded, apid, ctid, level, status, pos, t.apps[a].handle, description)
    case LoadCtx(apid, ctid, level, status, description) =>
      AddCtx(t, loaded, apid, ctid, level, status, 0, 0, description)
    case UnregisterApp(apid) => Unregister(t, apid)
    case UnregisterCtx(apid, ctid) =>
      var k := FindCtx(t.ctxs, apid, ctid);
      if k == |t.ctxs| || t.ctxs[k].predefined then t else DelCtx(t, k)
    case BrokenPipe(apid) =>
      var a := FindApp(t.apps, apid);
      if a == |t.apps| then t else ResetHandle(t, a)
    case SetLevel(apid, ctid, level, outs) => FullScan(t, LevelRequest(apid, ctid), level, outs, 0)
    case SetLevels(apid, level, status, outs) => AppScan(t, apid, level, status, outs, 0)
    case ClearAll => Tables([], [])
  }

  // ---- what the events do

  /** A context that registers uses the connection of its application; one from a file uses none and counts as
      predefined. */
  lemma {:induction false} ContextConnection(t: Tables, loaded: bool, apid: Id, ctid: Id, level: int, status: int, pos: int, description: seq<Byte>, i: nat)
    requires Indexed(t) && i < |t.apps| && t.apps[i].apid == apid && apid != Id4(0, 0, 0, 0) && ctid != Id4(0, 0, 0, 0)
    requires -1 <= level <= 6 && -1 <= status <= 1
    ensures var now := CtxOf(Apply(t, loaded, RegisterCtx(apid, ctid, level, status, pos, description)).ctxs, apid, ctid);
      now.Just? && now.value.handle == t.apps[i].handle && (now.value.predefined <==> t.apps[i].handle == 0)
    ensures var now := CtxOf(Apply(t, loaded, LoadCtx(apid, ctid, level, status, description)).ctxs, apid, ctid);
      now.Just? && now.value.handle == 0 && now.value.predefined
  {
    AppliedTo(t, loaded, apid, ctid, level, status, pos, description, i);
    hide *;
    ConnectionOf(t, loaded, apid, ctid, level, status, pos, t.apps[i].handle, description, i);
    ConnectionOf(t, loaded, apid, ctid, level, status, 0, 0, description, i);
  }

  lemma {:induction false} AppliedTo(t: Tables, loaded: bool, apid: Id, ctid: Id, level: int, status: int, pos: int, description: seq<Byte>, i: nat)
    requires Indexed(t) && i < |t.apps| && t.apps[i].apid == apid
    ensures Apply(t, loaded, RegisterCtx(apid, ctid, level, status, pos, description))
      == AddCtx(t, loaded, apid, ctid, level, status, pos, t.apps[i].handle, description)
    ensures Apply(t, loaded, LoadCtx(apid, ctid, level, status, description))
      == AddCtx(t, loaded, apid, ctid, level, status, 0, 0, description)
  {
    hide AddCtx, CountsRight, Homed, SortedApps, SortedCtxs;
    FoundApp(t.apps, apid, i);
  }

  lemma {:induction false} ConnectionOf(t: Tables, loaded: bool, apid: Id, ctid: Id, level: int, status: int, pos: int, handle: int, description: seq<Byte>, i: nat)
    requires Indexed(t) && i < |t.apps| && t.apps[i].apid == apid && apid != Id4(0, 0, 0, 0) && ctid != Id4(0, 0, 0, 0)
    requires -1 <= level <= 6 && -1 <= status <= 1
    ensures var now := CtxOf(AddCtx(t, loaded, apid, ctid, level, status, pos, handle, description).ctxs, apid, ctid);
      now.Just? && now.value.handle == handle && (now.value.predefined <==> handle == 0)
  {
    hide Indexed, AddCtx, CtxOf;
    RegisteredIff(t, loaded, apid, ctid, level, status, pos, handle, description);
  }

  /** An application takes back a context: it goes, unless a file defined it, and all others stay. */
  lemma {:induction false} PredefinedStays(t: Tables, loaded: bool, apid: Id, ctid: Id, b: Id, d: Id)
    requires Indexed(t)
    ensures var was := CtxOf(t.ctxs, apid, ctid);
      CtxOf(Apply(t, loaded, UnregisterCtx(apid, ctid)).ctxs, b, d)
        == if b == apid && d == ctid && was.Just? && !was.value.predefined then Nothing else CtxOf(t.ctxs, b, d)
  {
    var k := FindCtx(t.ctxs, apid, ctid);
    if k < |t.ctxs| && !t.ctxs[k].predefined {
      DelCtxLookup(t, k, b, d);
    }
    hide Indexed, DelCtx;
  }

  /** A broken connection is taken from its application and from the contexts that use it; nothing else changes. */
  lemma {:induction false} BrokenTakes(t: Tables, loaded: bool, apid: Id, i: nat)
    requires SortedApps(t.apps) && i < |t.apps| && t.apps[i].apid == apid
    ensures var u := Apply(t, loaded, BrokenPipe(apid)); var h := t.apps[i].handle;
      && |u.apps| == |t.apps| && |u.ctxs| == |t.ctxs|
      && u.apps[i] == (if h == -1 then t.apps[i] else t.apps[i].(handle := -1, owns := false))
      && (forall j :: 0 <= j < |t.apps| && j != i ==> u.apps[j] == t.apps[j])
      && (forall k :: 0 <= k < |t.ctxs| ==>
            u.ctxs[k] == if t.ctxs[k].handle == h then t.ctxs[k].(handle := -1) else t.ctxs[k])
  {
    FoundApp(t.apps, apid, i);
  }

  function ApplyAll(t: Tables, loaded: bool, ops: seq<Op>): Tables
    decreases |ops|
  {
    if ops == [] then t else ApplyAll(Apply(t, loaded, ops[0]), loaded, ops[1..])
  }

  lemma {:induction false} UnregisterOwned(t: Tables, apid: Id)
    requires Indexed(t) && Owned(t)
    ensures Owned(Unregister(t, apid))
  {
    var i := FindApp(t.apps, apid);
    if i < |t.apps| {
      UnregisterExact(t, apid);
      var o, n := Offset(t.apps, i), t.apps[i].count;
      DeleteDownIndexed(t, o, n);
      DeleteDownOwned(t, o, n);
      DelAppOwned(DeleteDown(t, o, n), i);
    }
  }

  lemma {:induction false} DeleteDownOwned(t: Tables, o: nat, n: nat)
    requires Owned(t) && o + n <= |t.ctxs|
    ensures Owned(DeleteDown(t, o, n))
    decreases n
  {
    if n > 0 {
      DelCtxOwned(t, o + n - 1);
      DeleteDownOwned(DelCtx(t, o + n - 1), o, n - 1);
    }
  }

  lemma {:induction false} RegisterKeeps(t: Tables, loaded: bool, op: Op)
    requires Indexed(t) && Owned(t) && OpOk(op) && (op.RegisterApp? || op.RegisterCtx? || op.LoadCtx?)
    ensures Indexed(Apply(t, loaded, op)) && Owned(Apply(t, loaded, op))
  {
    hide Indexed, Owned, AddApp, AddCtx;
    match op
    case RegisterApp(apid, pid, description, h, owns) =>
      AddAppIndexed(t, apid, pid, description, h, owns);
      AddAppOwned(t, apid, pid, description, h, owns);
    case RegisterCtx(apid, ctid, level, status, pos, description) =>
      var a := FindApp(t.apps, apid);
      if a < |t.apps| {
        AddCtxIndexed(t, loaded, apid, ctid, level, status, pos, t.apps[a].handle, description);
        AddCtxOwned(t, loaded, apid, ctid, level, status, pos, t.apps[a].handle, description);
      }
    case LoadCtx(apid, ctid, level, status, description) =>
      AddCtxIndexed(t, loaded, apid, ctid, level, status, 0, 0, description);
      AddCtxOwned(t, loaded, apid, ctid, level, status, 0, 0, description);
  }

  lemma {:induction false} UnregisterKeeps(t: Tables, loaded: bool, op: Op)
    requires Indexed(t) && Owned(t) && (op.UnregisterApp? || op.UnregisterCtx?)
    ensures Indexed(Apply(t, loaded, op)) && Owned(Apply(t, loaded, op))
  {
    hide Indexed, Owned, Unregister, DelCtx, FindCtx;
    match op
    case UnregisterApp(apid) =>
      UnregisterOwned(t, apid);
      if FindApp(t.apps, apid) < |t.apps| {
        UnregisterExact(t, apid);
      } else {
        UnregisterNobody(t, apid);
      }
    case UnregisterCtx(apid, ctid) =>
      var k := FindCtx(t.ctxs, apid, ctid);
      if k < |t.ctxs| {
        DelCtxIndexed(t, k);
        DelCtxOwned(t, k);
      }
  }

  lemma {:induction false} UnregisterNobody(t: Tables, apid: Id)
    requires FindApp(t.apps, apid) == |t.apps|
    ensures Unregister(t, apid) == t
  {
  }

  lemma {:induction false} EmptyKept()
    ensures Indexed(Tables([], [])) && Owned(Tables([], []))
  {
  }

  lemma {:induction false} ApplyKeeps(t: Tables, loaded: bool, op: Op)
    requires Indexed(t) && Owned(t) && OpOk(op)
    ensures Indexed(Apply(t, loaded, op)) && Owned(Apply(t, loaded, op))
  {
    hide Indexed, Owned, OpOk, Accept, ResetHandle, Unregister, FullScan, AppScan, AddApp, AddCtx, DelCtx;
    match op
    case Accepted(fd) =>
      AcceptIndexed(t, fd);
      AcceptOwned(t, fd);
    case BrokenPipe(apid) =>
      var a := FindApp(t.apps, apid);
      if a < |t.apps| {
        ResetIndexed(t, a);
        ResetOwned(t, a);
      }
    case SetLevel(apid, ctid, level, outs) => FullScanKeeps(t, LevelRequest(apid, ctid), level, outs, 0);
    case SetLevels(apid, level, status, outs) => AppScanKeeps(t, apid, level, status, outs, 0);
    case ClearAll => EmptyKept();
    case UnregisterApp(apid) => UnregisterKeeps(t, loaded, op);
    case UnregisterCtx(apid, ctid) => UnregisterKeeps(t, loaded, op);
    case RegisterApp(apid, pid, description, h, owns) => RegisterKeeps(t, loaded, op);
    case RegisterCtx(apid, ctid, level, status, pos, description) => RegisterKeeps(t, loaded, op);
    case LoadCtx(apid, ctid, level, status, description) => RegisterKeeps(t, loaded, op);
  }

  // ---- identifiers

  lemma {:induction false} OthersNamed(t: Tables, apid: Id)
    requires AllNamed(t)
    ensures AllNamed(Unregister(t, apid))
  {
    var i := FindApp(t.apps, apid);
    if i < |t.apps| {
      var rest := Others(t.ctxs, apid);
      forall k | 0 <= k < |rest| ensures rest[k].apid != NO_ID {
        OthersFrom(t.ctxs, apid, k);
      }
      hide Others;
    }
  }

  lemma {:induction false} DelCtxNamed(t: Tables, k: nat)
    requires AllNamed(t) && k < |t.ctxs|
    ensures AllNamed(DelCtx(t, k))
  {
  }

  lemma {:induction false} FullScanSameIds(t: Tables, q: LevelRequest, level: int, outs: nat -> Outcome, k: nat)
    requires k <= |t.ctxs|
    ensures var u := FullScan(t, q, level, outs, k); SameApids(t.apps, u.apps) && SameCtids(t.ctxs, u.ctxs)
    decreases |t.ctxs| - k
  {
    hide Targets;
    if k < |t.ctxs| {
      var v := if Targets(q, t.ctxs[k]) then SendLevel(t, k, level, outs(k)) else t;
      assert SameApids(t.apps, v.apps) && SameCtids(t.ctxs, v.ctxs) by {
        hide FullScan, FindApp;
      }
      hide SendLevel;
      FullScanSameIds(v, q, level, outs, k + 1);
    }
  }

  lemma {:induction false} AppScanSameIds(t: Tables, apid: Id, level: int, status: int, outs: nat -> Outcome, k: nat)
    requires k <= |t.ctxs|
    ensures var u := AppScan(t, apid, level, status, outs, k); SameApids(t.apps, u.apps) && SameCtids(t.ctxs, u.ctxs)
    decreases |t.ctxs| - k
  {
    if k < |t.ctxs| {
      var v := if t.ctxs[k].apid == apid then SendBoth(t, k, level, status, outs(k)) else t;
      SendBothSame(t, k, level, status, outs(k));
      hide SendBoth;
      AppScanSameIds(v, apid, level, status, outs, k + 1);
    }
  }

  /** Nothing without an identifier gets into the tables. */
  lemma {:induction false} ApplyKeepsNamed(t: Tables, loaded: bool, op: Op)
    requires AllNamed(t)
    ensures AllNamed(Apply(t, loaded, op))
  {
    hide AllNamed, AddApp, AddCtx, Unregister, DelCtx, FullScan, AppScan, FindCtx, FindApp;
    match op
    case Accepted(fd) => SameIdsNamed(t, Accept(t, fd));
    case RegisterApp(apid, pid, description, h, owns) => AddAppNames(t, apid, pid, description, h, owns);
    case RegisterCtx(apid, ctid, level, status, pos, description) =>
      var a := FindApp(t.apps, apid);
      if a < |t.apps| {
        AddCtxNames(t, loaded, apid, ctid, level, status, pos, t.apps[a].handle, description);
      }
    case LoadCtx(apid, ctid, level, status, description) =>
      AddCtxNames(t, loaded, apid, ctid, level, status, 0, 0, description);
    case UnregisterApp(apid) => OthersNamed(t, apid);
    case UnregisterCtx(apid, ctid) =>
      var k := FindCtx(t.ctxs, apid, ctid);
      if k < |t.ctxs| {
        DelCtxNamed(t, k);
      }
    case BrokenPipe(apid) =>
      var a := FindApp(t.apps, apid);
      if a < |t.apps| {
        SameIdsNamed(t, ResetHandle(t, a));
      }
    case SetLevel(apid, ctid, level, outs) =>
      FullScanSameIds(t, LevelRequest(apid, ctid), level, outs, 0);
      SameIdsNamed(t, Apply(t, loaded, op));
    case SetLevels(apid, level, status, outs) =>
      AppScanSameIds(t, apid, level, status, outs, 0);
      SameIdsNamed(t, Apply(t, loaded, op));
    case ClearAll => NothingNamed();
  }

  lemma {:induction false} NothingNamed()
    ensures AllNamed(Tables([], []))
  {
  }

  lemma {:induction false} RunKeepsNamed(t: Tables, loaded: bool, ops: seq<Op>)
    requires AllNamed(t)
    ensures AllNamed(ApplyAll(t, loaded, ops))
    decreases |ops|
  {
    hide AllNamed, Apply;
    if ops != [] {
      ApplyKeepsNamed(t, loaded, ops[0]);
      RunKeepsNamed(Apply(t, loaded, ops[0]), loaded, ops[1..]);
    }
  }

  // ---- runs

  /** After any sequence of operations the applications are strictly sorted, the contexts are strictly
      sorted, the counters are the index of the context table, no two applications share a connection, and
      no context uses the connection of an application other than its own. */
  lemma {:induction false} RunKeeps(t: Tables, loaded: bool, ops: seq<Op>)
    requires Indexed(t) && Owned(t) && forall i :: 0 <= i < |ops| ==> OpOk(ops[i])
    ensures var u := ApplyAll(t, loaded, ops); Indexed(u) && Owned(u)
    decreases |ops|
  {
    if ops != [] {
      ApplyKeeps(t, loaded, ops[0]);
      RunKeeps(Apply(t, loaded, ops[0]), loaded, ops[1..]);
    }
  }

  /** From the empty registry: everything has an identifier, every application's contexts are the slice its counters describe, the slices
      cover the table, and a context's connection belongs to nobody but its own application. */
  lemma {:induction false} FromEmpty(loaded: bool, ops: seq<Op>)
    requires forall i :: 0 <= i < |ops| ==> OpOk(ops[i])
    ensures var u := ApplyAll(Tables([], []), loaded, ops);
      && SortedApps(u.apps) && SortedCtxs(u.ctxs) && AllNamed(u)
      && Offset(u.apps, |u.apps|) == |u.ctxs|
      && (forall i, k :: 0 <= i < |u.apps| && 0 <= k < |u.ctxs| ==>
            (Offset(u.apps, i) <= k < Offset(u.apps, i) + u.apps[i].count <==> u.ctxs[k].apid == u.apps[i].apid))
      && (forall i, k :: 0 <= i < |u.apps| && 0 <= k < |u.ctxs| && u.ctxs[k].handle == u.apps[i].handle >= FD_MINIMUM ==>
            u.ctxs[k].apid == u.apps[i].apid)
  {
    var t := Tables([], []);
    assert Indexed(t);
    RunKeeps(t, loaded, ops);
    RunKeepsNamed(t, loaded, ops);
    var u := ApplyAll(t, loaded, ops);
    SlicesCover(u);
    forall i, k | 0 <= i < |u.apps| && 0 <= k < |u.ctxs|
      ensures Offset(u.apps, i) <= k < Offset(u.apps, i) + u.apps[i].count <==> u.ctxs[k].apid == u.apps[i].apid
    {
      SliceExact(u, i);
    }
    forall i, k | 0 <= i < |u.apps| && 0 <= k < |u.ctxs| && u.ctxs[k].handle == u.apps[i].handle >= FD_MINIMUM
      ensures u.ctxs[k].apid == u.apps[i].apid
    {
      ContextReachesOwner(u, k, i);
    }
  }
}

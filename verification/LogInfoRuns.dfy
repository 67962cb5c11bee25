/** The reply after any sequence of registry operations. */
module LogInfoRuns {
  import opened Ids
  import opened Sorting
  import opened Registry
  import opened RegistryIndex
  import opened RegistryHandles
  import opened RegistryRuns
  import opened RegistrySample
  import opened LevelScan
  import opened AppLevels
  import opened LogInfo
  import opened LogInfoReply
  import opened LogInfoRoundTrip

  lemma {:induction false} SameLevels(a: seq<Context>, b: seq<Context>)
    requires LevelsOk(a) && |a| == |b| && forall k :: 0 <= k < |a| ==> a[k].level == b[k].level && a[k].status == b[k].status
    ensures LevelsOk(b)
  {
  }

  lemma {:induction false} RemovedLevels(ctxs: seq<Context>, k: nat)
    requires LevelsOk(ctxs) && k < |ctxs|
    ensures LevelsOk(Removed(ctxs, k))
  {
  }

  lemma {:induction false} OthersLevels(ctxs: seq<Context>, apid: Id)
    requires LevelsOk(ctxs)
    ensures LevelsOk(Others(ctxs, apid))
  {
    if ctxs != [] {
      OthersLevels(ctxs[1..], apid);
    }
  }

  lemma {:induction false} AttachLevels(t: Tables, i: nat, pid: int, description: seq<Byte>, h: int, owns: bool)
    requires LevelsOk(t.ctxs) && i < |t.apps|
    ensures LevelsOk(Attach(t, i, pid, description, h, owns).ctxs)
  {
    SameLevels(t.ctxs, Attach(t, i, pid, description, h, owns).ctxs);
  }

  lemma {:induction false} AddAppLevels(t: Tables, apid: Id, pid: int, description: seq<Byte>, h: int, owns: bool)
    requires LevelsOk(t.ctxs)
    ensures LevelsOk(AddApp(t, apid, pid, description, h, owns).ctxs)
  {
    hide Attach, LevelsOk, FindApp;
    var i := FindApp(t.apps, apid);
    if i < |t.apps| {
      AttachLevels(t, i, pid, description, h, owns);
    } else {
      AttachLevels(AppendedApp(t, apid), i, pid, description, h, owns);
    }
  }

  lemma {:induction false} AddCtxLevels(t: Tables, loaded: bool, apid: Id, ctid: Id, level: int, status: int, pos: int, handle: int, description: seq<Byte>)
    requires LevelsOk(t.ctxs)
    ensures LevelsOk(AddCtx(t, loaded, apid, ctid, level, status, pos, handle, description).ctxs)
  {
  }

  lemma {:induction false} FullScanLevels(t: Tables, q: LevelRequest, level: int, outs: nat -> Outcome, k: nat)
    requires LevelsOk(t.ctxs) && IsInt8(level) && k <= |t.ctxs|
    ensures LevelsOk(FullScan(t, q, level, outs, k).ctxs)
    decreases |t.ctxs| - k
  {
    hide Targets;
    if k < |t.ctxs| {
      var u := if Targets(q, t.ctxs[k]) then SendLevel(t, k, level, outs(k)) else t;
      assert LevelsOk(u.ctxs) by {
        hide FullScan, FindApp;
      }
      hide SendLevel, LevelsOk;
      FullScanLevels(u, q, level, outs, k + 1);
    }
  }

  lemma {:induction false} AppScanLevels(t: Tables, apid: Id, level: int, status: int, outs: nat -> Outcome, k: nat)
    requires LevelsOk(t.ctxs) && IsInt8(level) && IsInt8(status) && k <= |t.ctxs|
    ensures LevelsOk(AppScan(t, apid, level, status, outs, k).ctxs)
    decreases |t.ctxs| - k
  {
    if k < |t.ctxs| {
      var u := if t.ctxs[k].apid == apid then SendBoth(t, k, level, status, outs(k)) else t;
      assert LevelsOk(u.ctxs) by {
        hide AppScan, FindApp;
      }
      hide SendBoth, LevelsOk;
      AppScanLevels(u, apid, level, status, outs, k + 1);
    }
  }

  lemma {:induction false} ApplyKeepsLevels(t: Tables, loaded: bool, op: Op)
    requires LevelsOk(t.ctxs) && OpOk(op)
    ensures LevelsOk(Apply(t, loaded, op).ctxs)
  {
    match op
    case Accepted(fd) => SameLevels(t.ctxs, Apply(t, loaded, op).ctxs);
    case RegisterApp(apid, pid, description, h, owns) => AddAppLevels(t, apid, pid, description, h, owns);
    case RegisterCtx(apid, ctid, level, status, pos, description) =>
      var a := FindApp(t.apps, apid);
      if a < |t.apps| {
        AddCtxLevels(t, loaded, apid, ctid, level, status, pos, t.apps[a].handle, description);
      }
    case LoadCtx(apid, ctid, level, status, description) =>
      AddCtxLevels(t, loaded, apid, ctid, level, status, 0, 0, description);
    case UnregisterApp(apid) =>
      OthersLevels(t.ctxs, apid);
      var i := FindApp(t.apps, apid);
      if i < |t.apps| {
        SameLevels(Others(t.ctxs, apid), InvalidateCtxs(Others(t.ctxs, apid), t.apps[i].handle));
      }
    case UnregisterCtx(apid, ctid) =>
      var k := FindCtx(t.ctxs, apid, ctid);
      if k < |t.ctxs| {
        RemovedLevels(t.ctxs, k);
      }
    case BrokenPipe(apid) => SameLevels(t.ctxs, Apply(t, loaded, op).ctxs);
    case SetLevel(apid, ctid, level, outs) => FullScanLevels(t, LevelRequest(apid, ctid), level, outs, 0);
    case SetLevels(apid, level, status, outs) => AppScanLevels(t, apid, level, status, outs, 0);
    case ClearAll =>
  }

  lemma {:induction false} RunKeepsLevels(t: Tables, loaded: bool, ops: seq<Op>)
    requires LevelsOk(t.ctxs) && forall i :: 0 <= i < |ops| ==> OpOk(ops[i])
    ensures LevelsOk(ApplyAll(t, loaded, ops).ctxs)
    decreases |ops|
  {
    if ops != [] {
      ApplyKeepsLevels(t, loaded, ops[0]);
      hide Apply, LevelsOk, OpOk;
      RunKeepsLevels(Apply(t, loaded, ops[0]), loaded, ops[1..]);
    }
  }

  /** Whatever has been registered and unregistered, and whatever levels have been set, what the library reads from a reply is what the request
      asks for, if and only if a context matches and no count and no length exceeds 255. */
  lemma {:induction false} AnyRegistryRoundTrip(loaded: bool, ops: seq<Op>, r: Request, tail: seq<Byte>)
    requires forall i :: 0 <= i < |ops| ==> OpOk(ops[i])
    requires Plain(r) && 3 <= r.option <= 7
    ensures var t := ApplyAll(Tables([], []), loaded, ops); var b := Reply(t, r) + tail; var infos := Wanted(t.apps, t.ctxs, r);
      |b| >= 5 && ((exists p :: Parse(b[4], b[5..]) == Got(infos, p)) <==> Found(infos) && Small(infos))
  {
    var t := Tables([], []);
    assert Indexed(t);
    RunKeeps(t, loaded, ops);
    RunKeepsLevels(t, loaded, ops);
    var u := ApplyAll(t, loaded, ops);
    hide *;
    ReplyParts(u, r, tail);
    ReplyRoundTrip(u, r, tail);
  }

  /** A text of 256 characters, whose length the library takes for 0. */
  function LongText(): (d: seq<Byte>)
    ensures |d| == 256
  {
    seq(256, _ => 120)
  }

  /** An application and its context register with descriptions of 256 characters: the reply that describes
      them is not read back. */
  lemma {:induction false} LongDescription(loaded: bool, tail: seq<Byte>)
    ensures var t := ApplyAll(Tables([], []), loaded, Registrations(LongText())[..2]); var r := Request(7, NO_ID, NO_ID);
      var b := Reply(t, r) + tail; var infos := Wanted(t.apps, t.ctxs, r);
      && |t.apps| == 1 && t.apps[0].description == LongText()
      && |b| >= 5 && !exists p :: Parse(b[4], b[5..]) == Got(infos, p)
  {
    var d := LongText();
    var ops, r := Registrations(d)[..2], Request(7, NO_ID, NO_ID);
    AllOk(d);
    Reached(d, loaded);
    AnyRegistryRoundTrip(loaded, ops, r, tail);
    var t := OneCtx(d);
    WantedAll(t.apps, t.ctxs, r);
    var infos := Wanted(t.apps, t.ctxs, r);
    assert infos[0].description == d;
    assert !AppSmall(infos[0]);
  }
}

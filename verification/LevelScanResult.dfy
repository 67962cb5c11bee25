/** What a request to set log levels leaves behind, told from the registry before it. */
module LevelScanResult {
  import opened Ids
  import opened Registry
  import opened RegistryIndex
  import opened RegistryHandles
  import opened LevelScan

  /** Sending to the context at index k breaks the connection of its application, if it still has one. */
  predicate Breaks(t: Tables, q: LevelRequest, outs: nat -> Outcome, k: nat)
    requires k < |t.ctxs|
  {
    Targets(q, t.ctxs[k]) && t.ctxs[k].handle >= FD_MINIMUM && outs(k) == Broken
  }

  /** One of the first n contexts broke the connection of the application. */
  predicate Cut(t: Tables, q: LevelRequest, outs: nat -> Outcome, apid: Id, n: nat)
    requires n <= |t.ctxs|
  {
    n > 0 && (Cut(t, q, outs, apid, n - 1) || (t.ctxs[n - 1].apid == apid && Breaks(t, q, outs, n - 1)))
  }

  /** The context is a target, its application was reachable until then and took the message. */
  predicate Delivered(t: Tables, q: LevelRequest, outs: nat -> Outcome, k: nat)
    requires k < |t.ctxs|
  {
    && Targets(q, t.ctxs[k]) && t.ctxs[k].handle >= FD_MINIMUM && outs(k) == Sent
    && !Cut(t, q, outs, t.ctxs[k].apid, k)
  }

  function CtxAfter(t: Tables, q: LevelRequest, level: int, outs: nat -> Outcome, n: nat, k: nat): (c: Context)
    requires n <= |t.ctxs| && k < |t.ctxs|
    ensures c.apid == t.ctxs[k].apid && c.ctid == t.ctxs[k].ctid
  {
    var c := t.ctxs[k];
    c.(level := if k < n && Delivered(t, q, outs, k) then level else c.level,
       handle := if c.handle >= FD_MINIMUM && Cut(t, q, outs, c.apid, n) then FD_INIT else c.handle)
  }

  function AppAfter(t: Tables, q: LevelRequest, outs: nat -> Outcome, n: nat, i: nat): (a: Application)
    requires n <= |t.ctxs| && i < |t.apps|
    ensures a.apid == t.apps[i].apid
  {
    var a := t.apps[i];
    if Cut(t, q, outs, a.apid, n) then a.(handle := FD_INIT, owns := false) else a
  }

  /** The registry after the first n contexts. */
  function After(t: Tables, q: LevelRequest, level: int, outs: nat -> Outcome, n: nat): (u: Tables)
    requires n <= |t.ctxs|
    ensures |u.apps| == |t.apps| && |u.ctxs| == |t.ctxs|
    ensures forall i :: 0 <= i < |t.apps| ==> u.apps[i] == AppAfter(t, q, outs, n, i)
    ensures forall k :: 0 <= k < |t.ctxs| ==> u.ctxs[k] == CtxAfter(t, q, level, outs, n, k)
  {
    Tables(seq(|t.apps|, i requires 0 <= i < |t.apps| => AppAfter(t, q, outs, n, i)),
           seq(|t.ctxs|, k requires 0 <= k < |t.ctxs| => CtxAfter(t, q, level, outs, n, k)))
  }

  lemma {:induction false} AfterNone(t: Tables, q: LevelRequest, level: int, outs: nat -> Outcome)
    ensures After(t, q, level, outs, 0) == t
  {
    hide Targets, Delivered;
  }

  lemma {:induction false} SameApp(t: Tables, q: LevelRequest, level: int, outs: nat -> Outcome, n: nat, apid: Id)
    requires n <= |t.ctxs|
    ensures FindApp(After(t, q, level, outs, n).apps, apid) == FindApp(t.apps, apid)
  {
    var u := After(t, q, level, outs, n);
    assert forall i :: 0 <= i < |t.apps| ==> u.apps[i].apid == t.apps[i].apid;
  }

  /** The application of a context, and its connection. */
  lemma {:induction false} OwnerOf(t: Tables, k: nat)
    requires Indexed(t) && Owned(t) && k < |t.ctxs|
    ensures var a := FindApp(t.apps, t.ctxs[k].apid); a < |t.apps| && (t.ctxs[k].handle >= FD_MINIMUM ==> t.apps[a].handle == t.ctxs[k].handle)
  {
    FindAppIsMember(t.apps, t.ctxs[k].apid);
  }

  /** Where nothing more breaks, nothing changes but the level. */
  lemma {:induction false} NoNewCut(t: Tables, q: LevelRequest, outs: nat -> Outcome, n: nat, apid: Id)
    requires n < |t.ctxs| && (!Breaks(t, q, outs, n) || Cut(t, q, outs, t.ctxs[n].apid, n))
    ensures Cut(t, q, outs, apid, n + 1) == Cut(t, q, outs, apid, n)
  {
  }

  lemma {:induction false} UnchangedStep(t: Tables, q: LevelRequest, level: int, outs: nat -> Outcome, n: nat)
    requires n < |t.ctxs| && (!Breaks(t, q, outs, n) || Cut(t, q, outs, t.ctxs[n].apid, n)) && !Delivered(t, q, outs, n)
    ensures After(t, q, level, outs, n + 1) == After(t, q, level, outs, n)
  {
    var u, v := After(t, q, level, outs, n), After(t, q, level, outs, n + 1);
    forall i | 0 <= i < |t.apps| ensures u.apps[i] == v.apps[i] {
      NoNewCut(t, q, outs, n, t.apps[i].apid);
    }
    forall k | 0 <= k < |t.ctxs| ensures u.ctxs[k] == v.ctxs[k] {
      NoNewCut(t, q, outs, n, t.ctxs[k].apid);
    }
  }

  lemma {:induction false} DeliveredStep(t: Tables, q: LevelRequest, level: int, outs: nat -> Outcome, n: nat)
    requires n < |t.ctxs| && Delivered(t, q, outs, n)
    ensures var u := After(t, q, level, outs, n);
      After(t, q, level, outs, n + 1) == u.(ctxs := u.ctxs[n := u.ctxs[n].(level := level)])
  {
    var u, v := After(t, q, level, outs, n), After(t, q, level, outs, n + 1);
    forall i | 0 <= i < |t.apps| ensures u.apps[i] == v.apps[i] {
      NoNewCut(t, q, outs, n, t.apps[i].apid);
    }
    forall k | 0 <= k < |t.ctxs| ensures v.ctxs[k] == if k == n then u.ctxs[n].(level := level) else u.ctxs[k] {
      NoNewCut(t, q, outs, n, t.ctxs[k].apid);
    }
  }

  lemma {:induction false} NewCut(t: Tables, q: LevelRequest, outs: nat -> Outcome, n: nat, apid: Id)
    requires n < |t.ctxs| && Breaks(t, q, outs, n)
    ensures Cut(t, q, outs, apid, n + 1) <==> Cut(t, q, outs, apid, n) || apid == t.ctxs[n].apid
  {
  }

  /** Who has the connection of the application at index a: itself and its own contexts. */
  lemma {:induction false} OnlyOwner(t: Tables, a: nat, k: nat)
    requires Indexed(t) && Owned(t) && a < |t.apps| && k < |t.ctxs| && t.apps[a].handle >= FD_MINIMUM
    ensures t.ctxs[k].handle == t.apps[a].handle <==> t.ctxs[k].handle >= FD_MINIMUM && t.ctxs[k].apid == t.apps[a].apid
  {
    if t.ctxs[k].handle == t.apps[a].handle {
      ContextReachesOwner(t, k, a);
    }
  }

  /** The next context breaks the connection of the application at index a, which had it until then. */
  ghost predicate BreaksNow(t: Tables, q: LevelRequest, outs: nat -> Outcome, n: nat, a: nat) {
    && Indexed(t) && Owned(t) && n < |t.ctxs| && Breaks(t, q, outs, n) && !Cut(t, q, outs, t.ctxs[n].apid, n)
    && a < |t.apps| && t.apps[a].apid == t.ctxs[n].apid && t.apps[a].handle == t.ctxs[n].handle
  }

  lemma {:induction false} BrokenApp(t: Tables, q: LevelRequest, outs: nat -> Outcome, n: nat, a: nat, i: nat)
    requires BreaksNow(t, q, outs, n, a) && i < |t.apps|
    ensures AppAfter(t, q, outs, n + 1, i)
      == if i == a then AppAfter(t, q, outs, n, a).(handle := FD_INIT, owns := false) else AppAfter(t, q, outs, n, i)
  {
    DistinctApids(t.apps);
    hide Indexed, Owned, Cut, Targets, Breaks;
    NewCut(t, q, outs, n, t.apps[i].apid);
  }

  lemma {:induction false} BrokenCtx(t: Tables, q: LevelRequest, level: int, outs: nat -> Outcome, n: nat, a: nat, k: nat)
    requires BreaksNow(t, q, outs, n, a) && k < |t.ctxs|
    ensures var c := CtxAfter(t, q, level, outs, n, k);
      CtxAfter(t, q, level, outs, n + 1, k) == if c.handle == t.apps[a].handle then c.(handle := FD_INIT) else c
  {
    assert t.apps[a].handle >= FD_MINIMUM;
    hide Indexed, Owned, Cut, Targets, Delivered, Breaks;
    NewCut(t, q, outs, n, t.ctxs[k].apid);
    OnlyOwner(t, a, k);
    NotDelivered(t, q, outs, n);
  }

  lemma {:induction false} BrokenStep(t: Tables, q: LevelRequest, level: int, outs: nat -> Outcome, n: nat, a: nat)
    requires BreaksNow(t, q, outs, n, a)
    ensures After(t, q, level, outs, n + 1) == ResetHandle(After(t, q, level, outs, n), a)
  {
    var u, v := After(t, q, level, outs, n), After(t, q, level, outs, n + 1);
    var w := ResetHandle(u, a);
    assert u.apps[a] == t.apps[a] && t.apps[a].handle >= FD_MINIMUM;
    hide Indexed, Owned, Cut, Delivered, Targets, Breaks, AppAfter, CtxAfter;
    forall i | 0 <= i < |t.apps| ensures v.apps[i] == w.apps[i] {
      BrokenApp(t, q, outs, n, a, i);
    }
    forall k | 0 <= k < |t.ctxs| ensures v.ctxs[k] == w.ctxs[k] {
      BrokenCtx(t, q, level, outs, n, a, k);
    }
  }

  lemma {:induction false} NotDelivered(t: Tables, q: LevelRequest, outs: nat -> Outcome, n: nat)
    requires n < |t.ctxs| && Breaks(t, q, outs, n)
    ensures !Delivered(t, q, outs, n)
  {
  }

  lemma {:induction false} ScanStep(t: Tables, q: LevelRequest, level: int, outs: nat -> Outcome, n: nat)
    requires Indexed(t) && Owned(t) && n < |t.ctxs|
    ensures var u := After(t, q, level, outs, n);
      After(t, q, level, outs, n + 1) == if Targets(q, u.ctxs[n]) then SendLevel(u, n, level, outs(n)) else u
  {
    var u, c := After(t, q, level, outs, n), t.ctxs[n];
    var a := FindApp(t.apps, c.apid);
    OwnerOf(t, n);
    SameApp(t, q, level, outs, n, c.apid);
    TargetsById(q, c, u.ctxs[n]);
    if Delivered(t, q, outs, n) {
      DeliveredStep(t, q, level, outs, n);
    } else if Breaks(t, q, outs, n) && !Cut(t, q, outs, c.apid, n) {
      BrokenStep(t, q, level, outs, n, a);
    } else {
      UnchangedStep(t, q, level, outs, n);
    }
    hide Indexed, Owned, Targets, Cut, ResetHandle;
  }

  lemma {:induction false} TargetsById(q: LevelRequest, c: Context, d: Context)
    requires c.apid == d.apid && c.ctid == d.ctid
    ensures Targets(q, c) == Targets(q, d)
  {
  }

  lemma {:induction false} ScanFrom(t: Tables, q: LevelRequest, level: int, outs: nat -> Outcome, n: nat)
    requires Indexed(t) && Owned(t) && n <= |t.ctxs|
    ensures FullScan(After(t, q, level, outs, n), q, level, outs, n) == After(t, q, level, outs, |t.ctxs|)
    decreases |t.ctxs| - n
  {
    hide Indexed, Owned, Targets, After, SendLevel;
    if n < |t.ctxs| {
      ScanStep(t, q, level, outs, n);
      ScanFrom(t, q, level, outs, n + 1);
    }
  }

  /** A request changes the level of exactly those contexts that it targets and whose application took the
      message; every other context keeps its level. Only applications whose own connection broke lose it. */
  lemma {:induction false} ScanResult(t: Tables, q: LevelRequest, level: int, outs: nat -> Outcome)
    requires Indexed(t) && Owned(t)
    ensures var u := FullScan(t, q, level, outs, 0);
      && (forall k :: 0 <= k < |t.ctxs| ==>
            u.ctxs[k].level == (if Delivered(t, q, outs, k) then level else t.ctxs[k].level))
      && (forall i :: 0 <= i < |t.apps| ==>
            u.apps[i].handle == (if Cut(t, q, outs, t.apps[i].apid, |t.ctxs|) then FD_INIT else t.apps[i].handle))
  {
    AfterNone(t, q, level, outs);
    ScanFrom(t, q, level, outs, 0);
    hide Indexed, Owned, FullScan, Delivered, Cut;
  }
}

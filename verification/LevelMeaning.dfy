/** What requests to set levels mean, context by context. */
module LevelMeaning {
  import opened Ids
  import opened Registry
  import opened RegistryIndex
  import opened RegistryHandles
  import opened LevelScan
  import opened LevelScanResult
  import AppLevels

  // ---- which contexts a request is for

  /** What the characters of a pattern ask of an identifier: a '*' at the end leaves open what follows. */
  predicate Matches(p: Id, i: Id) {
    if p.d == 42 then i.a == p.a && i.b == p.b && i.c == p.c
    else if p.d == 0 && p.c == 42 then i.a == p.a && i.b == p.b
    else if p.c == 0 && p.b == 42 then i.a == p.a
    else if p.b == 0 && p.a == 42 then true
    else i.a == p.a && i.b == p.b && i.c == p.c && i.d == p.d
  }

  lemma {:induction false} FitsIsMatches(p: Id, i: Id)
    ensures Fits(p, i) <==> Matches(p, i)
  {
    var n := Length(p);
    assert n > 0 ==> Bytes(i)[..n - 1] == [i.a, i.b, i.c, i.d][..n - 1];
    if n == 4 {
      assert Bytes(i)[..3] == [i.a, i.b, i.c] && Bytes(p)[..3] == [p.a, p.b, p.c];
    } else if n == 3 {
      assert Bytes(i)[..2] == [i.a, i.b] && Bytes(p)[..2] == [p.a, p.b];
    } else if n == 2 {
      assert Bytes(i)[..1] == [i.a] && Bytes(p)[..1] == [p.a];
    }
  }

  /** A request with one identifier is for whatever its pattern matches, one with both for that context alone,
      also where they end in '*', and one with none for nothing. */
  lemma {:induction false} TargetsMean(q: LevelRequest, c: Context)
    ensures var none := Id4(0, 0, 0, 0);
      Targets(q, c) <==>
        || (q.apid != none && q.ctid == none && Matches(q.apid, c.apid))
        || (q.apid == none && q.ctid != none && Matches(q.ctid, c.ctid))
        || (q.apid != none && q.ctid != none && c.apid == q.apid && c.ctid == q.ctid)
  {
    FitsIsMatches(q.apid, c.apid);
    FitsIsMatches(q.ctid, c.ctid);
    hide Fits, Matches;
  }

  // ---- what becomes of them

  /** At one of the first n contexts the connection of the application broke. */
  predicate BrokeBefore(t: Tables, q: LevelRequest, outs: nat -> Outcome, apid: Id, n: nat)
    requires n <= |t.ctxs|
  {
    exists j :: 0 <= j < n && t.ctxs[j].apid == apid && Targets(q, t.ctxs[j]) && t.ctxs[j].handle >= 3 && outs(j) == Broken
  }

  lemma {:induction false} CutIff(t: Tables, q: LevelRequest, outs: nat -> Outcome, apid: Id, n: nat)
    requires n <= |t.ctxs|
    ensures Cut(t, q, outs, apid, n) <==> BrokeBefore(t, q, outs, apid, n)
  {
    hide Targets;
    if n > 0 {
      CutIff(t, q, outs, apid, n - 1);
    }
  }

  /** The context afterwards: it has the level if its application was connected, at that moment still, and took
      the message. Connections that broke are gone for an application and all of its contexts. */
  lemma {:induction false} ScanMeaning(t: Tables, q: LevelRequest, level: int, outs: nat -> Outcome, k: nat)
    requires Indexed(t) && Owned(t) && k < |t.ctxs|
    ensures var u := FullScan(t, q, level, outs, 0); var c := t.ctxs[k];
      u.ctxs[k] == c.(
        level := if Targets(q, c) && c.handle >= 3 && outs(k) == Sent && !BrokeBefore(t, q, outs, c.apid, k)
          then level else c.level,
        handle := if c.handle >= 3 && BrokeBefore(t, q, outs, c.apid, |t.ctxs|) then -1 else c.handle)
  {
    hide Indexed, Owned, FullScan, Targets, BrokeBefore, Cut;
    AfterNone(t, q, level, outs);
    ScanFrom(t, q, level, outs, 0);
    CutIff(t, q, outs, t.ctxs[k].apid, k);
    CutIff(t, q, outs, t.ctxs[k].apid, |t.ctxs|);
  }

  lemma {:induction false} ScanApps(t: Tables, q: LevelRequest, level: int, outs: nat -> Outcome, i: nat)
    requires Indexed(t) && Owned(t) && i < |t.apps|
    ensures FullScan(t, q, level, outs, 0).apps[i]
      == if BrokeBefore(t, q, outs, t.apps[i].apid, |t.ctxs|) then t.apps[i].(handle := -1, owns := false) else t.apps[i]
  {
    hide Indexed, Owned, FullScan, Targets, BrokeBefore, Cut;
    AfterNone(t, q, level, outs);
    ScanFrom(t, q, level, outs, 0);
    CutIff(t, q, outs, t.apps[i].apid, |t.ctxs|);
  }

  // ---- requests of an application

  /** At a context of the application, before index n, its connection broke. */
  predicate BrokeFor(t: Tables, apid: Id, outs: nat -> Outcome, n: nat)
    requires n <= |t.ctxs|
  {
    exists j :: 0 <= j < n && t.ctxs[j].apid == apid && t.ctxs[j].handle >= 3 && outs(j) == Broken
  }

  /** An application sets both values of its own contexts only: of those without a connection, of those for
      which it took the message, and of those that lost the connection before they were reached. */
  lemma {:induction false} AppScanMeaning(t: Tables, apid: Id, level: int, status: int, outs: nat -> Outcome, k: nat)
    requires Indexed(t) && Owned(t) && k < |t.ctxs|
    ensures var u := AppLevels.AppScan(t, apid, level, status, outs, 0); var c := t.ctxs[k];
      var taken := c.handle < 3 || outs(k) == Sent || BrokeFor(t, apid, outs, k);
      u.ctxs[k] ==
        if c.apid != apid then c
        else c.(level := if taken then level else c.level,
                status := if taken then status else c.status,
                handle := if c.handle >= 3 && BrokeFor(t, apid, outs, |t.ctxs|) then -1 else c.handle)
  {
    AppLevels.AppScanResult(t, apid, level, status, outs);
    hide Indexed, Owned;
    assert AppLevels.BrokeIn(t, apid, outs, 0, k) <==> BrokeFor(t, apid, outs, k);
    assert AppLevels.BrokeIn(t, apid, outs, 0, |t.ctxs|) <==> BrokeFor(t, apid, outs, |t.ctxs|);
  }
}

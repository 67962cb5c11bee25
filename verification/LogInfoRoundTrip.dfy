/** What the client library reads from the reply is what the request asks for. */
module LogInfoRoundTrip {
  import opened Ids
  import opened Registry
  import opened RegistryIndex
  import opened LogInfo
  import opened LogInfoReply
  import opened LogInfoReplySize

  // ---- the slices are the matching contexts

  lemma {:induction false} MatchingNone(ctxs: seq<Context>, apid: Id, ctid: Id)
    requires forall k :: 0 <= k < |ctxs| ==> ctxs[k].apid != apid || !Shown(ctid, ctxs[k])
    ensures Matching(ctxs, apid, ctid) == []
  {
    if ctxs != [] {
      assert forall k :: 0 <= k < |ctxs[1..]| ==> ctxs[1..][k] == ctxs[k + 1];
      MatchingNone(ctxs[1..], apid, ctid);
    }
  }

  lemma {:induction false} MatchingAll(ctxs: seq<Context>, apid: Id, ctid: Id)
    requires forall k :: 0 <= k < |ctxs| ==> ctxs[k].apid == apid && Shown(ctid, ctxs[k])
    ensures Matching(ctxs, apid, ctid) == ctxs
  {
    if ctxs != [] {
      MatchingAll(ctxs[1..], apid, ctid);
    }
  }

  lemma {:induction false} MatchingSplit(a: seq<Context>, b: seq<Context>, apid: Id, ctid: Id)
    ensures Matching(a + b, apid, ctid) == Matching(a, apid, ctid) + Matching(b, apid, ctid)
  {
    if a == [] {
      assert a + b == b;
    } else {
      var first := if a[0].apid == apid && Shown(ctid, a[0]) then [a[0]] else [];
      assert (a + b)[1..] == a[1..] + b;
      calc {
        Matching(a + b, apid, ctid);
        first + Matching(a[1..] + b, apid, ctid);
        { MatchingSplit(a[1..], b, apid, ctid); }
        first + (Matching(a[1..], apid, ctid) + Matching(b, apid, ctid));
        (first + Matching(a[1..], apid, ctid)) + Matching(b, apid, ctid);
      }
    }
  }

  lemma {:induction false} MatchingSlice(ctxs: seq<Context>, apid: Id, o: nat, n: nat)
    requires o + n <= |ctxs|
    requires forall k :: 0 <= k < |ctxs| ==> (o <= k < o + n <==> ctxs[k].apid == apid)
    ensures Matching(ctxs, apid, NO_ID) == ctxs[o..o + n]
  {
    hide Matching;
    var a, b, c := ctxs[..o], ctxs[o..o + n], ctxs[o + n..];
    MatchingNone(a, apid, NO_ID);
    MatchingAll(b, apid, NO_ID);
    MatchingNone(c, apid, NO_ID);
    MatchingSplit(b, c, apid, NO_ID);
    MatchingSplit(a, b + c, apid, NO_ID);
    assert ctxs == a + (b + c);
  }

  /** In a sorted table a context stands at most once. */
  lemma {:induction false} StandsOnce(ctxs: seq<Context>, k: nat, j: nat)
    requires SortedCtxs(ctxs) && k < j < |ctxs|
    ensures ctxs[j].apid != ctxs[k].apid || ctxs[j].ctid != ctxs[k].ctid
  {
    assert CtxKey(ctxs[k]) < CtxKey(ctxs[j]);
  }

  lemma {:induction false} MatchingSingle(ctxs: seq<Context>, apid: Id, ctid: Id, k: nat)
    requires k < |ctxs| && ctid != NO_ID
    requires forall j :: 0 <= j < |ctxs| ==> (ctxs[j].apid == apid && ctxs[j].ctid == ctid <==> j == k)
    ensures Matching(ctxs, apid, ctid) == [ctxs[k]]
  {
    hide Matching;
    var a, b, c := ctxs[..k], [ctxs[k]], ctxs[k + 1..];
    MatchingNone(a, apid, ctid);
    MatchingAll(b, apid, ctid);
    MatchingNone(c, apid, ctid);
    MatchingSplit(b, c, apid, ctid);
    MatchingSplit(a, b + c, apid, ctid);
    assert ctxs == a + (b + c);
  }

  lemma {:induction false} MatchingOne(ctxs: seq<Context>, apid: Id, ctid: Id)
    requires SortedCtxs(ctxs) && ctid != NO_ID
    ensures var k := FindCtx(ctxs, apid, ctid);
      Matching(ctxs, apid, ctid) == if k < |ctxs| then [ctxs[k]] else []
  {
    hide Matching, SortedCtxs, FindCtx;
    var k := FindCtx(ctxs, apid, ctid);
    if k == |ctxs| {
      MatchingNone(ctxs, apid, ctid);
    } else {
      forall j | k < j < |ctxs| ensures ctxs[j].apid != apid || ctxs[j].ctid != ctid {
        StandsOnce(ctxs, k, j);
      }
      MatchingSingle(ctxs, apid, ctid, k);
    }
  }

  /** A context without an application is not a request of this kind. */
  predicate Plain(r: Request) {
    r.apid == NO_ID ==> r.ctid == NO_ID
  }

  lemma {:induction false} SourceMatches(t: Tables, r: Request, i: nat)
    requires Indexed(t) && i < |t.apps| && Plain(r) && (r.apid == NO_ID || t.apps[i].apid == r.apid)
    ensures Source(t, r, i) == Matching(t.ctxs, t.apps[i].apid, r.ctid)
  {
    if r.ctid == NO_ID {
      SliceExact(t, i);
      SliceIs(t, i);
      MatchingSlice(t.ctxs, t.apps[i].apid, Offset(t.apps, i), t.apps[i].count);
    } else {
      MatchingOne(t.ctxs, r.apid, r.ctid);
    }
  }

  lemma {:induction false} SourceAllShown(t: Tables, r: Request, i: nat)
    requires Indexed(t) && i < |t.apps| && Plain(r)
    ensures var cs := Source(t, r, i); AllShown(r.ctid, cs, |cs|)
  {
    hide Slice, Indexed;
  }

  // ---- the loops write the encoding

  lemma {:induction false} EncodeCtxsSnoc(option: int, cs: seq<CtxInfo>, n: nat)
    requires n < |cs|
    ensures EncodeCtxs(option, cs, n + 1) == EncodeCtxs(option, cs, n) + EncodeCtx(option, cs[n])
    decreases n
  {
    hide EncodeCtx;
    if n > 0 {
      var first, rest := EncodeCtx(option, cs[0]), cs[1..];
      calc {
        EncodeCtxs(option, cs, n + 1);
        first + EncodeCtxs(option, rest, n);
        { EncodeCtxsSnoc(option, rest, n - 1); }
        first + (EncodeCtxs(option, rest, n - 1) + EncodeCtx(option, rest[n - 1]));
        (first + EncodeCtxs(option, rest, n - 1)) + EncodeCtx(option, cs[n]);
      }
    } else {
      assert EncodeCtxs(option, cs[1..], 0) == [];
    }
  }

  lemma {:induction false} CtxsEncoded(option: int, ctid: Id, cs: seq<Context>, n: nat)
    requires n <= |cs| && AllShown(ctid, cs, |cs|)
    ensures CtxsBytes(option, ctid, cs, n) == EncodeCtxs(option, CtxInfos(option, cs), n)
  {
    hide EncodeCtx, CtxInfoOf, EncodeCtxs;
    if n > 0 {
      CtxsEncoded(option, ctid, cs, n - 1);
      EncodeCtxsSnoc(option, CtxInfos(option, cs), n - 1);
      assert Shown(ctid, cs[n - 1]);
    } else {
      NoCtxs(option, CtxInfos(option, cs));
    }
  }

  lemma {:induction false} NoCtxs(option: int, cs: seq<CtxInfo>)
    ensures EncodeCtxs(option, cs, 0) == []
  {
  }

  lemma {:induction false} EncodeAppsSnoc(option: int, infos: seq<AppInfo>, n: nat)
    requires n < |infos|
    ensures EncodeApps(option, infos, n + 1) == EncodeApps(option, infos, n) + EncodeApp(option, infos[n])
    decreases n
  {
    hide EncodeApp;
    if n > 0 {
      var first, rest := EncodeApp(option, infos[0]), infos[1..];
      calc {
        EncodeApps(option, infos, n + 1);
        first + EncodeApps(option, rest, n);
        { EncodeAppsSnoc(option, rest, n - 1); }
        first + (EncodeApps(option, rest, n - 1) + EncodeApp(option, rest[n - 1]));
        (first + EncodeApps(option, rest, n - 1)) + EncodeApp(option, infos[n]);
      }
    } else {
      assert EncodeApps(option, infos[1..], 0) == [];
    }
  }

  lemma {:induction false} AppEncoded(t: Tables, r: Request, i: nat)
    requires i < |t.apps| && AllShown(r.ctid, Source(t, r, i), |Source(t, r, i)|)
    ensures AppBytes(t, r, i) == EncodeApp(r.option, AppInfoOf(r.option, t.apps[i], Source(t, r, i)))
  {
    var cs := Source(t, r, i);
    CtxsEncoded(r.option, r.ctid, cs, |cs| % 0x1_0000);
    hide Source, AllShown, EncodeCtxs, CtxsBytes, Text, U16, CtxInfoOf, CtxBytes, EncodeCtx, Bytes;
  }

  /** The reported applications in the order they are written. */
  function Reported(t: Tables, r: Request): (infos: seq<AppInfo>)
    ensures |infos| == NumApps(t, r)
  {
    seq(NumApps(t, r), k requires 0 <= k < NumApps(t, r) =>
      AppInfoOf(r.option, t.apps[Index(t, r, k)], Source(t, r, Index(t, r, k))))
  }

  lemma {:induction false} AppsEncoded(t: Tables, r: Request, n: nat)
    requires Indexed(t) && Plain(r) && n <= NumApps(t, r)
    ensures AppsBytes(t, r, n) == EncodeApps(r.option, Reported(t, r), n)
  {
    hide Indexed, EncodeApp, AppBytes, AppInfoOf, Source, EncodeApps, AllShown;
    if n > 0 {
      AppsEncoded(t, r, n - 1);
      SourceAllShown(t, r, Index(t, r, n - 1));
      AppEncoded(t, r, Index(t, r, n - 1));
      EncodeAppsSnoc(r.option, Reported(t, r), n - 1);
    } else {
      NoApps(r.option, Reported(t, r));
    }
  }

  lemma {:induction false} NoApps(option: int, infos: seq<AppInfo>)
    ensures EncodeApps(option, infos, 0) == []
  {
  }

  lemma {:induction false} BodyEncoded(t: Tables, r: Request)
    requires Indexed(t) && Plain(r) && NumApps(t, r) % 0x1_0000 != 0
    ensures Body(t, r) == Encode(r.option, Reported(t, r))
  {
    var n := NumApps(t, r);
    AppsEncoded(t, r, n % 0x1_0000);
    hide Indexed, NumApps, AppsBytes, EncodeApps, Reported;
    WrapTwice(n);
  }

  /** A 16-bit field keeps what a 16-bit variable keeps. */
  lemma {:induction false} WrapTwice(n: nat)
    ensures U16(n % 0x1_0000) == U16(n)
  {
    var k := n / 0x1_0000;
    assert n == n % 0x1_0000 + 256 * (256 * k);
    assert n / 256 == (n % 0x1_0000) / 256 + 256 * k;
  }

  // ---- what is reported is what is wanted

  lemma {:induction false} WantedAll(apps: seq<Application>, ctxs: seq<Context>, r: Request)
    requires r.apid == NO_ID
    ensures |Wanted(apps, ctxs, r)| == |apps|
    ensures forall i :: 0 <= i < |apps| ==>
      Wanted(apps, ctxs, r)[i] == AppInfoOf(r.option, apps[i], Matching(ctxs, apps[i].apid, r.ctid))
  {
    hide AppInfoOf, Matching;
    if apps != [] {
      WantedAll(apps[1..], ctxs, r);
    }
  }

  lemma {:induction false} WantedNone(apps: seq<Application>, ctxs: seq<Context>, r: Request)
    requires r.apid != NO_ID && forall i :: 0 <= i < |apps| ==> apps[i].apid != r.apid
    ensures Wanted(apps, ctxs, r) == []
  {
    if apps != [] {
      WantedNone(apps[1..], ctxs, r);
    }
  }

  lemma {:induction false} WantedOne(apps: seq<Application>, ctxs: seq<Context>, r: Request)
    requires SortedApps(apps) && r.apid != NO_ID
    ensures var i := FindApp(apps, r.apid);
      Wanted(apps, ctxs, r) ==
        if i < |apps| then [AppInfoOf(r.option, apps[i], Matching(ctxs, apps[i].apid, r.ctid))] else []
  {
    hide AppInfoOf, Matching;
    if apps != [] {
      var rest := apps[1..];
      if apps[0].apid == r.apid {
        forall i | 0 <= i < |rest| ensures rest[i].apid != r.apid {
          assert AppKey(apps[0]) < AppKey(apps[i + 1]);
        }
        WantedNone(rest, ctxs, r);
      } else {
        assert forall i :: 0 <= i < |rest| ==> rest[i] == apps[i + 1];
        assert SortedApps(rest);
        WantedOne(rest, ctxs, r);
      }
    }
  }

  lemma {:induction false} ReportedAt(t: Tables, r: Request, k: nat)
    requires Indexed(t) && Plain(r) && k < NumApps(t, r)
    ensures var i := Index(t, r, k);
      Reported(t, r)[k] == AppInfoOf(r.option, t.apps[i], Matching(t.ctxs, t.apps[i].apid, r.ctid))
  {
    SourceMatches(t, r, Index(t, r, k));
    hide Indexed, Source, Matching, AppInfoOf;
  }

  lemma {:induction false} ReportedIsWanted(t: Tables, r: Request)
    requires Indexed(t) && Plain(r)
    ensures Reported(t, r) == Wanted(t.apps, t.ctxs, r)
  {
    forall k | 0 <= k < NumApps(t, r)
      ensures var i := Index(t, r, k); Reported(t, r)[k] == AppInfoOf(r.option, t.apps[i], Matching(t.ctxs, t.apps[i].apid, r.ctid))
    {
      ReportedAt(t, r, k);
    }
    if r.apid == NO_ID {
      WantedAll(t.apps, t.ctxs, r);
    } else {
      WantedOne(t.apps, t.ctxs, r);
    }
  }

  // ---- the status

  /** Something is found: an application with a context. */
  predicate Found(infos: seq<AppInfo>) {
    exists i :: 0 <= i < |infos| && infos[i].ctxs != []
  }

  lemma {:induction false} StatusAll(t: Tables, r: Request)
    requires Indexed(t) && Plain(r) && r.apid == NO_ID
    ensures NumApps(t, r) != 0 && NumCtxs(t, r) != 0 <==> Found(Reported(t, r))
  {
    if t.ctxs != [] {
      var i :| 0 <= i < |t.apps| && t.apps[i].apid == t.ctxs[0].apid;
      SliceExact(t, i);
      SliceIs(t, i);
      assert Reported(t, r)[i].ctxs != [];
    }
    if Found(Reported(t, r)) {
      var i :| 0 <= i < |Reported(t, r)| && Reported(t, r)[i].ctxs != [];
      SliceIs(t, i);
    }
  }

  /** The status is the option if something is found, and reports no match otherwise. */
  lemma {:induction false} StatusMeaning(t: Tables, r: Request)
    requires Indexed(t) && Plain(r) && 3 <= r.option <= 7
    ensures Status(t, r) == if Found(Wanted(t.apps, t.ctxs, r)) then r.option else NO_MATCHING_CONTEXT
  {
    ReportedIsWanted(t, r);
    if r.apid == NO_ID {
      StatusAll(t, r);
    } else if FindApp(t.apps, r.apid) < |t.apps| {
      var i := FindApp(t.apps, r.apid);
      OneRoom(t, r);
      hide Indexed, Source, FindCtx;
      assert Reported(t, r)[0].ctxs == CtxInfos(r.option, Source(t, r, i));
    }
  }

  // ---- the round trip

  /** Levels and statuses are signed bytes; nothing more is checked when they are set. */
  predicate LevelsOk(ctxs: seq<Context>) {
    forall k :: 0 <= k < |ctxs| ==> -128 <= ctxs[k].level < 128 && -128 <= ctxs[k].status < 128
  }

  lemma {:induction false} MatchingLevels(ctxs: seq<Context>, apid: Id, ctid: Id)
    requires LevelsOk(ctxs)
    ensures LevelsOk(Matching(ctxs, apid, ctid))
  {
    if ctxs != [] {
      MatchingLevels(ctxs[1..], apid, ctid);
    }
  }

  lemma {:induction false} WantedShape(apps: seq<Application>, ctxs: seq<Context>, r: Request)
    requires LevelsOk(ctxs)
    ensures forall i :: 0 <= i < |Wanted(apps, ctxs, r)| ==> AppShape(r.option, Wanted(apps, ctxs, r)[i])
  {
    hide Matching;
    if apps != [] {
      MatchingLevels(ctxs, apps[0].apid, r.ctid);
      InfoShape(r.option, apps[0], Matching(ctxs, apps[0].apid, r.ctid));
      hide AppShape, AppInfoOf, LevelsOk;
      WantedShape(apps[1..], ctxs, r);
    }
  }

  lemma {:induction false} InfoShape(option: int, a: Application, cs: seq<Context>)
    requires LevelsOk(cs)
    ensures AppShape(option, AppInfoOf(option, a, cs))
  {
    hide WithLevel, WithStatus, WithText;
  }

  lemma {:induction false} NothingToRead(option: int, infos: seq<AppInfo>, tail: seq<Byte>)
    requires 3 <= option <= 7 && |infos| % 0x1_0000 == 0 && infos != []
    ensures !exists p :: Parse(option, Remo() + tail) == Got(infos, p)
    ensures !Small(infos)
  {
    hide ParseApps;
    var b := Remo() + tail;
    assert |infos| >= 0x1_0000;
    assert Parse(option, b).Got? ==> |Parse(option, b).value| < 256;
  }

  lemma {:induction false} ReplyParts(t: Tables, r: Request, tail: seq<Byte>)
    requires 3 <= r.option <= 7
    ensures var b := Reply(t, r) + tail;
      |b| >= 5 && b[..4] == U32(SERVICE_ID) && b[4] == Status(t, r) && b[5..] == Body(t, r) + (Remo() + tail)
  {
    hide Body, NumApps, NumCtxs;
    var b := Reply(t, r) + tail;
    assert b == Head(t, r) + (Body(t, r) + (Remo() + tail));
  }

  lemma {:induction false} BodyRead(t: Tables, r: Request, tail: seq<Byte>)
    requires Indexed(t) && LevelsOk(t.ctxs) && Plain(r) && 3 <= r.option <= 7
    requires Found(Wanted(t.apps, t.ctxs, r))
    ensures var infos := Wanted(t.apps, t.ctxs, r);
      (exists p :: Parse(r.option, Body(t, r) + (Remo() + tail)) == Got(infos, p)) <==> Small(infos)
  {
    var infos := Wanted(t.apps, t.ctxs, r);
    ReportedIsWanted(t, r);
    assert |infos| == NumApps(t, r) > 0;
    if NumApps(t, r) % 0x1_0000 == 0 {
      NothingToRead(r.option, infos, tail);
      assert Body(t, r) + (Remo() + tail) == Remo() + tail;
    } else {
      BodyEncoded(t, r);
      WantedShape(t.apps, t.ctxs, r);
      hide *;
      ParseEncode(r.option, infos, Remo() + tail);
    }
  }

  /** For every registry with whatever levels, every option and every request for all, for one application, or for one application
      and context: the library reads from the reply, whatever follows it, exactly the applications and
      contexts that match, with their levels, statuses and descriptions, if and only if a context matches and
      no count and no length exceeds 255. */
  lemma {:induction false} ReplyRoundTrip(t: Tables, r: Request, tail: seq<Byte>)
    requires Indexed(t) && LevelsOk(t.ctxs) && Plain(r) && 3 <= r.option <= 7
    ensures var b := Reply(t, r) + tail; var infos := Wanted(t.apps, t.ctxs, r);
      && b[..4] == U32(SERVICE_ID)
      && b[4] == Status(t, r)
      && ((exists p :: Parse(b[4], b[5..]) == Got(infos, p)) <==> Found(infos) && Small(infos))
  {
    var b, infos := Reply(t, r) + tail, Wanted(t.apps, t.ctxs, r);
    ReplyParts(t, r, tail);
    StatusMeaning(t, r);
    if Found(infos) {
      BodyRead(t, r, tail);
    }
  }
}

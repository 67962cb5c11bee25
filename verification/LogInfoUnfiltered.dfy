/** Requests that name a context and no application. The daemon announces how many contexts an application
    has before it skips those that do not match. */
module LogInfoUnfiltered {
  import opened Ids
  import opened Registry
  import opened RegistryIndex
  import opened LogInfo
  import opened LogInfoReply
  import opened LogInfoReplySize
  import opened LogInfoRoundTrip

  /** A context is named, an application is not. */
  predicate Named(r: Request) {
    r.apid == NO_ID && r.ctid != NO_ID && 3 <= r.option <= 7
  }

  /** The number of contexts that is announced for an application, as far as the library keeps it, is the
      number of those that match. */
  predicate CountsRead(t: Tables, r: Request) {
    forall i :: 0 <= i < |t.apps| ==> t.apps[i].count % 256 == |WantedAt(t, r, i).ctxs|
  }

  /** The numbers of contexts fit the 16-bit variable in which they are announced. */
  predicate Counts16(t: Tables) {
    forall i :: 0 <= i < |t.apps| ==> t.apps[i].count < 0x1_0000
  }

  function WantedAt(t: Tables, r: Request, i: nat): AppInfo
    requires i < |t.apps|
  {
    AppInfoOf(r.option, t.apps[i], Matching(t.ctxs, t.apps[i].apid, r.ctid))
  }

  // ---- what matches of a slice

  function ShownOf(cs: seq<Context>, ctid: Id): (r: seq<Context>)
    ensures |r| <= |cs|
    ensures |r| == |cs| <==> AllShown(ctid, cs, |cs|)
    ensures |r| == |cs| ==> r == cs
  {
    if cs == [] then []
    else
      var rest := ShownOf(cs[1..], ctid);
      assert AllShown(ctid, cs, |cs|) <==> Shown(ctid, cs[0]) && AllShown(ctid, cs[1..], |cs| - 1) by {
        AllShownStep(ctid, cs);
      }
      if Shown(ctid, cs[0]) then [cs[0]] + rest else rest
  }

  lemma {:induction false} AllShownStep(ctid: Id, cs: seq<Context>)
    requires cs != []
    ensures AllShown(ctid, cs, |cs|) <==> Shown(ctid, cs[0]) && AllShown(ctid, cs[1..], |cs| - 1)
  {
    if Shown(ctid, cs[0]) && AllShown(ctid, cs[1..], |cs| - 1) {
      forall j | 0 <= j < |cs| ensures Shown(ctid, cs[j]) {
        assert j > 0 ==> cs[j] == cs[1..][j - 1];
      }
    }
    if AllShown(ctid, cs, |cs|) {
      forall j | 0 <= j < |cs| - 1 ensures Shown(ctid, cs[1..][j]) {
        assert cs[1..][j] == cs[j + 1];
      }
    }
  }

  lemma {:induction false} MatchingIsShown(ctxs: seq<Context>, apid: Id, ctid: Id)
    ensures Matching(ctxs, apid, ctid) == ShownOf(Matching(ctxs, apid, NO_ID), ctid)
  {
    if ctxs != [] {
      MatchingIsShown(ctxs[1..], apid, ctid);
      var rest := Matching(ctxs[1..], apid, NO_ID);
      var some := Matching(ctxs[1..], apid, ctid);
      assert [] + rest == rest && [] + some == some;
      if ctxs[0].apid == apid {
        assert Matching(ctxs, apid, NO_ID) == [ctxs[0]] + rest;
        assert ([ctxs[0]] + rest)[1..] == rest;
        assert ShownOf([ctxs[0]] + rest, ctid) == (if Shown(ctid, ctxs[0]) then [ctxs[0]] + some else some);
      }
    }
  }

  /** What is wanted of an application, and what the loop runs over. */
  lemma {:induction false} WantedOfSlice(t: Tables, r: Request, i: nat)
    requires Indexed(t) && Named(r) && i < |t.apps|
    ensures Source(t, r, i) == Slice(t, i) && |Slice(t, i)| == t.apps[i].count
    ensures Matching(t.ctxs, t.apps[i].apid, r.ctid) == ShownOf(Slice(t, i), r.ctid)
  {
    hide *;
    SourceIsSlice(t, r, i);
    SliceExact(t, i);
    SliceIs(t, i);
    MatchingSlice(t.ctxs, t.apps[i].apid, Offset(t.apps, i), t.apps[i].count);
    MatchingIsShown(t.ctxs, t.apps[i].apid, r.ctid);
  }

  lemma {:induction false} SourceIsSlice(t: Tables, r: Request, i: nat)
    requires Named(r) && i < |t.apps|
    ensures Source(t, r, i) == Slice(t, i)
  {
    hide Slice;
  }

  // ---- one application

  lemma {:induction false} ShownOfSnoc(cs: seq<Context>, c: Context, ctid: Id)
    ensures ShownOf(cs + [c], ctid) == ShownOf(cs, ctid) + if Shown(ctid, c) then [c] else []
  {
    hide AllShown;
    if cs == [] {
      assert ([] + [c])[1..] == [] && [] + [c] == [c];
    } else {
      assert (cs + [c])[1..] == cs[1..] + [c];
      ShownOfSnoc(cs[1..], c, ctid);
    }
  }

  lemma {:induction false} EncodeCtxsPrefix(option: int, cs: seq<CtxInfo>, more: seq<CtxInfo>, n: nat)
    requires n <= |cs|
    ensures EncodeCtxs(option, cs + more, n) == EncodeCtxs(option, cs, n)
    decreases n
  {
    hide EncodeCtx;
    if n > 0 {
      assert (cs + more)[1..] == cs[1..] + more;
      EncodeCtxsPrefix(option, cs[1..], more, n - 1);
    }
  }

  function ShownInfos(option: int, ctid: Id, cs: seq<Context>): seq<CtxInfo> {
    CtxInfos(option, ShownOf(cs, ctid))
  }

  lemma {:induction false} ShownInfosSnoc(option: int, ctid: Id, cs: seq<Context>, c: Context)
    ensures ShownInfos(option, ctid, cs + [c])
         == ShownInfos(option, ctid, cs) + if Shown(ctid, c) then [CtxInfoOf(option, c)] else []
  {
    ShownOfSnoc(cs, c, ctid);
    hide ShownOf, CtxInfoOf, Shown;
  }

  /** The loop writes the contexts that match. */
  lemma {:induction false} ShownAreWritten(option: int, ctid: Id, cs: seq<Context>, n: nat)
    requires n <= |cs|
    ensures var infos := ShownInfos(option, ctid, cs[..n]);
      CtxsBytes(option, ctid, cs, n) == EncodeCtxs(option, infos, |infos|)
  {
    hide EncodeCtx, CtxInfoOf, EncodeCtxs, ShownInfos, Shown;
    if n == 0 {
      NothingShown(option, ctid);
      NoCtxs(option, []);
      assert cs[..0] == [];
    } else {
      ShownAreWritten(option, ctid, cs, n - 1);
      assert cs[..n] == cs[..n - 1] + [cs[n - 1]];
      ShownInfosSnoc(option, ctid, cs[..n - 1], cs[n - 1]);
      var infos, x := ShownInfos(option, ctid, cs[..n - 1]), CtxInfoOf(option, cs[n - 1]);
      if Shown(ctid, cs[n - 1]) {
        EncodeCtxsSnoc(option, infos + [x], |infos|);
        EncodeCtxsPrefix(option, infos, [x], |infos|);
      } else {
        assert infos + [] == infos;
      }
    }
  }

  lemma {:induction false} NothingShown(option: int, ctid: Id)
    ensures ShownInfos(option, ctid, []) == []
  {
  }

  /** The announced number fits, and what the library would read is what is wanted. */
  predicate ReadsApp(t: Tables, r: Request, i: nat)
    requires i < |t.apps|
  {
    t.apps[i].count % 256 == |WantedAt(t, r, i).ctxs| && AppSmall(WantedAt(t, r, i))
  }

  lemma {:induction false} WantedCtxs(t: Tables, r: Request, i: nat)
    requires Indexed(t) && Named(r) && i < |t.apps|
    ensures WantedAt(t, r, i).ctxs == ShownInfos(r.option, r.ctid, Slice(t, i))
    ensures WantedAt(t, r, i).apid == Bytes(t.apps[i].apid)
    ensures WantedAt(t, r, i).description == if WithText(r.option) then t.apps[i].description else []
  {
    WantedOfSlice(t, r, i);
    hide Indexed, Slice, Matching, ShownOf, CtxInfoOf, Source;
  }

  /** What is written for an application: its identifier, the number of all its contexts, those that match. */
  lemma {:induction false} AppBytesAre(t: Tables, r: Request, i: nat)
    requires Indexed(t) && Named(r) && Counts16(t) && i < |t.apps|
    ensures var x := WantedAt(t, r, i);
      AppBytes(t, r, i) ==
        x.apid + U16(t.apps[i].count) + EncodeCtxs(r.option, x.ctxs, |x.ctxs|) + AppText(r.option, t.apps[i])
  {
    hide *;
    WantedOfSlice(t, r, i);
    WantedCtxs(t, r, i);
    CountFits(t, i);
    var cs := Slice(t, i);
    AppBytesRaw(t, r, i);
    assert cs[..|cs|] == cs;
    ShownAreWritten(r.option, r.ctid, cs, |cs|);
  }

  lemma {:induction false} CountFits(t: Tables, i: nat)
    requires Counts16(t) && i < |t.apps|
    ensures t.apps[i].count < 0x1_0000
  {
  }

  lemma {:induction false} AppBytesRaw(t: Tables, r: Request, i: nat)
    requires i < |t.apps| && Source(t, r, i) == Slice(t, i) && |Slice(t, i)| < 0x1_0000
    ensures var cs := Slice(t, i);
      AppBytes(t, r, i) ==
        Bytes(t.apps[i].apid) + U16(|cs|) + CtxsBytes(r.option, r.ctid, cs, |cs|) + AppText(r.option, t.apps[i])
  {
    hide Source, Slice, CtxsBytes, U16, Bytes, AppText;
  }

  lemma {:induction false} AppTextIs(option: int, a: Application)
    ensures AppText(option, a) == if WithText(option) then Text(a.description) else []
  {
  }

  lemma {:induction false} PartsRead(b: seq<Byte>, pos: nat, id: seq<Byte>, n: nat, body: seq<Byte>, text: seq<Byte>)
    requires At(b, pos, id + U16(n) + body + text) && |id| == 4
    ensures ReadBytes(b, pos, 4) == Got(id, pos + 4) && ReadCount(b, pos + 4) == Got(n % 256, pos + 6)
    ensures At(b, pos + 6, body) && At(b, pos + 6 + |body|, text)
  {
    hide U16, ReadCount;
    AtSplit(b, pos, id + U16(n) + body, text);
    AtSplit(b, pos, id + U16(n), body);
    AtSplit(b, pos, id, U16(n));
    CountRead(b, pos + 4, n);
  }

  /** The parts of the application, where the library looks for them. */
  lemma {:induction false} AppPartsRead(t: Tables, r: Request, b: seq<Byte>, pos: nat, i: nat)
    requires Indexed(t) && Named(r) && Counts16(t) && i < |t.apps| && At(b, pos, AppBytes(t, r, i))
    ensures var x := WantedAt(t, r, i); var body := EncodeCtxs(r.option, x.ctxs, |x.ctxs|);
      && ReadBytes(b, pos, 4) == Got(x.apid, pos + 4)
      && ReadCount(b, pos + 4) == Got(t.apps[i].count % 256, pos + 6)
      && At(b, pos + 6, body)
      && (WithText(r.option) ==> At(b, pos + 6 + |body|, Text(x.description)))
      && |AppBytes(t, r, i)| == 6 + |body| + if WithText(r.option) then 2 + |x.description| else 0
  {
    hide *;
    AppBytesAre(t, r, i);
    WantedCtxs(t, r, i);
    AppTextIs(r.option, t.apps[i]);
    WantedOfSlice(t, r, i);
    var x := WantedAt(t, r, i);
    PartsRead(b, pos, x.apid, t.apps[i].count, EncodeCtxs(r.option, x.ctxs, |x.ctxs|), AppText(r.option, t.apps[i]));
    TextLength(x.description);
  }

  lemma {:induction false} WantedShapeAt(t: Tables, r: Request, i: nat)
    requires LevelsOk(t.ctxs) && i < |t.apps|
    ensures AppShape(r.option, WantedAt(t, r, i))
  {
    MatchingLevels(t.ctxs, t.apps[i].apid, r.ctid);
    InfoShape(r.option, t.apps[i], Matching(t.ctxs, t.apps[i].apid, r.ctid));
    hide Matching, AppInfoOf, AppShape, LevelsOk;
  }

  lemma {:induction false} AppReadIff(t: Tables, r: Request, b: seq<Byte>, pos: nat, i: nat)
    requires Indexed(t) && LevelsOk(t.ctxs) && Named(r) && Counts16(t) && i < |t.apps| && At(b, pos, AppBytes(t, r, i))
    ensures var p := ParseApp(r.option, b, pos);
      && (ReadsApp(t, r, i) ==> p == Got(WantedAt(t, r, i), pos + |AppBytes(t, r, i)|))
      && (!ReadsApp(t, r, i) ==> p.Failed? || p.value != WantedAt(t, r, i))
  {
    hide *;
    var x, k := WantedAt(t, r, i), t.apps[i].count % 256;
    ReadsAppIs(t, r, i);
    WantedShapeAt(t, r, i);
    ShapeParts(r.option, x);
    AppPartsRead(t, r, b, pos, i);
    AppSmallParts(x);
    AppReadStep(r.option, b, pos, x.apid, k);
    if k == |x.ctxs| {
      CtxsRead(r.option, b, pos + 6, x.ctxs);
      if CtxsSmall(x.ctxs) && WithText(r.option) {
        TextRead(b, pos + 6 + |EncodeCtxs(r.option, x.ctxs, |x.ctxs|)|, x.description);
      }
    }
  }

  lemma {:induction false} ReadsAppIs(t: Tables, r: Request, i: nat)
    requires i < |t.apps|
    ensures ReadsApp(t, r, i) <==> t.apps[i].count % 256 == |WantedAt(t, r, i).ctxs| && AppSmall(WantedAt(t, r, i))
  {
  }

  lemma {:induction false} ShapeParts(option: int, a: AppInfo)
    requires AppShape(option, a)
    ensures forall j :: 0 <= j < |a.ctxs| ==> CtxShape(option, a.ctxs[j])
    ensures !WithText(option) ==> a.description == []
  {
  }

  // ---- all applications

  /** The bytes of the applications from k on. */
  function AppsFrom(t: Tables, r: Request, k: nat): seq<Byte>
    requires k <= |t.apps|
    decreases |t.apps| - k
  {
    if k == |t.apps| then [] else AppBytes(t, r, k) + AppsFrom(t, r, k + 1)
  }

  lemma {:induction false} AppsBytesFrom(t: Tables, r: Request, k: nat)
    requires Named(r) && k <= |t.apps|
    ensures AppsBytes(t, r, |t.apps|) == AppsBytes(t, r, k) + AppsFrom(t, r, k)
    decreases |t.apps| - k
  {
    hide AppBytes;
    if k < |t.apps| {
      AppsBytesFrom(t, r, k + 1);
      assert AppsBytes(t, r, k + 1) == AppsBytes(t, r, k) + AppBytes(t, r, k);
      hide *;
      Associates(AppsBytes(t, r, k), AppBytes(t, r, k), AppsFrom(t, r, k + 1));
    }
  }

  lemma {:induction false} Associates(a: seq<Byte>, b: seq<Byte>, c: seq<Byte>)
    ensures (a + b) + c == a + (b + c)
  {
  }

  predicate ReadsFrom(t: Tables, r: Request, k: nat) {
    forall i :: k <= i < |t.apps| ==> ReadsApp(t, r, i)
  }

  function WantedFrom(t: Tables, r: Request, k: nat): (infos: seq<AppInfo>)
    requires k <= |t.apps|
    ensures |infos| == |t.apps| - k
    decreases |t.apps| - k
  {
    if k == |t.apps| then [] else [WantedAt(t, r, k)] + WantedFrom(t, r, k + 1)
  }

  lemma {:induction false} ReadsNext(t: Tables, r: Request, k: nat)
    requires k < |t.apps|
    ensures ReadsFrom(t, r, k) <==> ReadsApp(t, r, k) && ReadsFrom(t, r, k + 1)
  {
    hide ReadsApp;
  }

  predicate ReadsAs(option: int, b: seq<Byte>, pos: nat, infos: seq<AppInfo>) {
    var p := ParseApps(option, b, pos, |infos|);
    p.Got? && p.value == infos
  }

  lemma {:induction false} ReadsAsStep(option: int, b: seq<Byte>, pos: nat, infos: seq<AppInfo>)
    requires infos != []
    ensures var p := ParseApp(option, b, pos);
      ReadsAs(option, b, pos, infos) <==> p.Got? && p.value == infos[0] && ReadsAs(option, b, p.pos, infos[1..])
  {
    hide ParseApp;
    var p := ParseApp(option, b, pos);
    if p.Got? {
      var rest := ParseApps(option, b, p.pos, |infos| - 1);
      if rest.Got? {
        assert ([p.value] + rest.value)[1..] == rest.value;
        assert infos == [infos[0]] + infos[1..];
      }
    }
  }

  lemma {:induction false} AppsReadIff(t: Tables, r: Request, b: seq<Byte>, pos: nat, k: nat)
    requires Indexed(t) && LevelsOk(t.ctxs) && Named(r) && Counts16(t) && k <= |t.apps| && At(b, pos, AppsFrom(t, r, k))
    ensures ReadsAs(r.option, b, pos, WantedFrom(t, r, k)) <==> ReadsFrom(t, r, k)
    decreases |t.apps| - k
  {
    hide Indexed, LevelsOk, Counts16, At, AppBytes, ParseApp, ReadsApp, WantedAt;
    var infos := WantedFrom(t, r, k);
    if k < |t.apps| {
      AtSplit(b, pos, AppBytes(t, r, k), AppsFrom(t, r, k + 1));
      AppReadIff(t, r, b, pos, k);
      ReadsNext(t, r, k);
      assert infos[0] == WantedAt(t, r, k) && infos[1..] == WantedFrom(t, r, k + 1);
      hide ReadsFrom, WantedFrom, AppsFrom, ReadsAs;
      ReadsAsStep(r.option, b, pos, infos);
      if ReadsApp(t, r, k) {
        AppsReadIff(t, r, b, pos + |AppBytes(t, r, k)|, k + 1);
      }
    }
  }

  lemma {:induction false} WantedIsFrom(t: Tables, r: Request, k: nat)
    requires Named(r) && k <= |t.apps|
    ensures |Wanted(t.apps, t.ctxs, r)| == |t.apps| && Wanted(t.apps, t.ctxs, r)[k..] == WantedFrom(t, r, k)
    decreases |t.apps| - k
  {
    WantedAll(t.apps, t.ctxs, r);
    var infos := Wanted(t.apps, t.ctxs, r);
    hide Wanted, Matching, AppInfoOf;
    if k < |t.apps| {
      WantedIsFrom(t, r, k + 1);
      assert infos[k..] == [infos[k]] + infos[k + 1..];
    }
  }

  lemma {:induction false} ReadsAllIff(t: Tables, r: Request)
    requires Named(r)
    ensures ReadsFrom(t, r, 0) <==> AppsSmall(Wanted(t.apps, t.ctxs, r)) && CountsRead(t, r)
  {
    WantedAll(t.apps, t.ctxs, r);
    var infos := Wanted(t.apps, t.ctxs, r);
    assert forall i :: 0 <= i < |t.apps| ==> infos[i] == WantedAt(t, r, i);
    hide Wanted, WantedAt, AppSmall;
    forall i | 0 <= i < |t.apps|
      ensures ReadsApp(t, r, i) <==> t.apps[i].count % 256 == |WantedAt(t, r, i).ctxs| && AppSmall(infos[i])
    {
    }
  }

  lemma {:induction false} ShownEverywhere(t: Tables, ctid: Id, k: nat)
    requires k <= |t.apps|
    ensures AppsShown(t, ctid, k) <==> forall i :: 0 <= i < k ==> AllShown(ctid, Slice(t, i), |Slice(t, i)|)
  {
    hide AllShown, Slice;
    if k > 0 {
      ShownEverywhere(t, ctid, k - 1);
    }
  }

  /** Where no application has more than 255 contexts, the numbers are right if and only if every context of the
      registry matches. */
  lemma {:induction false} AllMustMatch(t: Tables, r: Request)
    requires Indexed(t) && Named(r) && forall i :: 0 <= i < |t.apps| ==> t.apps[i].count < 256
    ensures CountsRead(t, r) <==> AllShown(r.ctid, t.ctxs, |t.ctxs|)
  {
    forall i | 0 <= i < |t.apps|
      ensures t.apps[i].count % 256 == |WantedAt(t, r, i).ctxs| <==> AllShown(r.ctid, Slice(t, i), |Slice(t, i)|)
    {
      OneMatches(t, r, i);
    }
    hide Indexed, AllShown, Slice, AppsShown, WantedAt, Named;
    AllRoom(t, r);
    ShownEverywhere(t, r.ctid, |t.apps|);
  }

  lemma {:induction false} OneMatches(t: Tables, r: Request, i: nat)
    requires Indexed(t) && Named(r) && i < |t.apps| && t.apps[i].count < 256
    ensures t.apps[i].count % 256 == |WantedAt(t, r, i).ctxs| <==> AllShown(r.ctid, Slice(t, i), |Slice(t, i)|)
  {
    hide *;
    WantedOfSlice(t, r, i);
    WantedCtxs(t, r, i);
    InfosOf(r.option, r.ctid, Slice(t, i));
  }

  lemma {:induction false} InfosOf(option: int, ctid: Id, cs: seq<Context>)
    ensures |ShownInfos(option, ctid, cs)| == |ShownOf(cs, ctid)|
  {
    hide ShownOf;
  }

  // ---- the reply

  lemma {:induction false} NumberRead(t: Tables, r: Request, rest: seq<Byte>)
    requires Named(r) && |t.apps| % 0x1_0000 != 0
    ensures var b := Body(t, r) + rest; ReadCount(b, 0) == Got(|t.apps| % 256, 2)
    ensures |t.apps| < 0x1_0000 ==> At(Body(t, r) + rest, 2, AppsFrom(t, r, 0))
  {
    hide AppsBytes, AppsFrom, ReadCount;
    var n := |t.apps| % 0x1_0000;
    var b, body := Body(t, r) + rest, AppsBytes(t, r, n);
    assert At(b, 0, U16(n) + body);
    AtSplit(b, 0, U16(n), body);
    CountRead(b, 0, n);
    assert n % 256 == |t.apps| % 256;
    if |t.apps| < 0x1_0000 {
      AppsBytesFrom(t, r, 0);
      NoneBefore(t, r);
    }
  }

  lemma {:induction false} NoneBefore(t: Tables, r: Request)
    requires Named(r)
    ensures AppsBytes(t, r, 0) + AppsFrom(t, r, 0) == AppsFrom(t, r, 0)
  {
    assert AppsBytes(t, r, 0) == [];
  }

  /** What the library makes of the body, by the number of applications. */
  lemma {:induction false} BodyParsed(t: Tables, r: Request, rest: seq<Byte>)
    requires Named(r) && |t.apps| % 0x1_0000 != 0
    ensures var p := Parse(r.option, Body(t, r) + rest);
      && (|t.apps| < 256 ==> p == ParseApps(r.option, Body(t, r) + rest, 2, |t.apps|))
      && (|t.apps| >= 256 ==> p.Failed? || |p.value| < 256)
  {
    hide *;
    NumberRead(t, r, rest);
    OptionRead(r, Body(t, r) + rest, |t.apps| % 256);
  }

  lemma {:induction false} OptionRead(r: Request, b: seq<Byte>, n: nat)
    requires Named(r) && ReadCount(b, 0) == Got(n, 2)
    ensures Parse(r.option, b) == ParseApps(r.option, b, 2, n)
  {
    hide ReadCount, ParseApps;
  }

  /** What reading exactly the wanted applications means. */
  predicate ReadsWanted(status: int, b: seq<Byte>, infos: seq<AppInfo>) {
    var p := Parse(status, b);
    p.Got? && p.value == infos
  }

  lemma {:induction false} FewRead(t: Tables, r: Request, rest: seq<Byte>)
    requires Indexed(t) && LevelsOk(t.ctxs) && Named(r) && Counts16(t) && 0 < |t.apps| < 256
    ensures var infos := Wanted(t.apps, t.ctxs, r);
      ReadsWanted(r.option, Body(t, r) + rest, infos) <==> AppsSmall(infos) && CountsRead(t, r)
  {
    var infos := Wanted(t.apps, t.ctxs, r);
    var b := Body(t, r) + rest;
    WantedIsFrom(t, r, 0);
    assert infos[0..] == infos;
    NumberRead(t, r, rest);
    BodyParsed(t, r, rest);
    hide Indexed, LevelsOk, Counts16, Wanted, Body, AppsFrom, WantedFrom, Parse, ParseApps, ReadCount, At, CountsRead, AppsSmall, ReadsFrom, Named;
    AppsReadIff(t, r, b, 2, 0);
    ReadsAllIff(t, r);
  }

  lemma {:induction false} NotRead(status: int, b: seq<Byte>, infos: seq<AppInfo>)
    ensures (exists p :: Parse(status, b) == Got(infos, p)) <==> ReadsWanted(status, b, infos)
  {
    hide Parse;
    var p := Parse(status, b);
    if p.Got? && p.value == infos {
      assert p == Got(infos, p.pos);
    }
  }

  lemma {:induction false} ManyRead(t: Tables, r: Request, tail: seq<Byte>)
    requires Named(r) && |t.apps| >= 256
    ensures !ReadsWanted(r.option, Body(t, r) + (Remo() + tail), Wanted(t.apps, t.ctxs, r))
  {
    var infos := Wanted(t.apps, t.ctxs, r);
    WantedAll(t.apps, t.ctxs, r);
    hide Wanted, Matching, Body, Parse, Remo;
    if |t.apps| % 0x1_0000 == 0 {
      NothingToRead(r.option, infos, tail);
      EmptyBody(t, r);
      assert [] + (Remo() + tail) == Remo() + tail;
      NotRead(r.option, Remo() + tail, infos);
    } else {
      BodyParsed(t, r, Remo() + tail);
    }
  }

  lemma {:induction false} BodyReadIff(t: Tables, r: Request, tail: seq<Byte>)
    requires Indexed(t) && LevelsOk(t.ctxs) && Named(r) && Counts16(t) && t.apps != []
    ensures var infos := Wanted(t.apps, t.ctxs, r);
      ReadsWanted(r.option, Body(t, r) + (Remo() + tail), infos) <==> Small(infos) && CountsRead(t, r)
  {
    WantedIsFrom(t, r, 0);
    hide Indexed, LevelsOk, Counts16, Wanted, Body, ReadsWanted, CountsRead, AppsSmall, Named;
    if |t.apps| < 256 {
      FewRead(t, r, Remo() + tail);
    } else {
      ManyRead(t, r, tail);
    }
  }

  lemma {:induction false} EmptyBody(t: Tables, r: Request)
    requires Named(r) && |t.apps| % 0x1_0000 == 0
    ensures Body(t, r) == []
  {
  }

  lemma {:induction false} SomeApp(t: Tables)
    requires Indexed(t) && t.ctxs != []
    ensures t.apps != []
  {
    assert t.ctxs[0].apid in Apids(t.apps);
  }

  /** For every registry whose counts fit 16 bits and every request for a context of any application: the
      library reads from the reply exactly the matching contexts if and only if there is a context, nothing
      exceeds 255, and for each application the announced number is, in its lower byte, that of the matching
      contexts. */
  lemma {:induction false} UnfilteredIff(t: Tables, r: Request, tail: seq<Byte>)
    requires Indexed(t) && LevelsOk(t.ctxs) && Named(r) && Counts16(t)
    ensures var b := Reply(t, r) + tail; var infos := Wanted(t.apps, t.ctxs, r);
      && |b| >= 5
      && (ReadsWanted(b[4], b[5..], infos)
          <==> |t.ctxs| > 0 && Small(infos) && CountsRead(t, r))
  {
    ReplyParts(t, r, tail);
    if t.ctxs != [] {
      SomeApp(t);
      hide Indexed, LevelsOk, Counts16, Wanted, Reply, ReadsWanted, CountsRead, Small, Body;
      BodyReadIff(t, r, tail);
    } else {
      hide Indexed, LevelsOk, Counts16, Wanted, Reply, CountsRead, Small, Body;
    }
  }

  // ---- an input

  const A := Id4(65, 0, 0, 0)
  const X := Id4(88, 0, 0, 0)
  const Y := Id4(89, 0, 0, 0)

  /** One application with two contexts. */
  function TwoContexts(): Tables {
    Tables([Application(A, 1, FD_INIT, false, [], 2)],
           [Context(A, X, 4, 0, 0, FD_INIT, [], 0, false), Context(A, Y, 4, 0, 0, FD_INIT, [], 0, false)])
  }

  lemma {:induction false} TwoSource(r: Request)
    requires r == Request(3, NO_ID, X)
    ensures Source(TwoContexts(), r, 0) == TwoContexts().ctxs
  {
    var t := TwoContexts();
    assert Offset(t.apps, 0) == 0;
    assert t.ctxs[0..2] == t.ctxs;
  }

  lemma {:induction false} TwoBytes(cs: seq<Context>)
    requires cs == TwoContexts().ctxs
    ensures CtxsBytes(3, X, cs, 2) == Bytes(X)
  {
    assert CtxsBytes(3, X, cs, 0) == [];
    assert CtxBytes(3, cs[0]) == Bytes(X);
    assert CtxsBytes(3, X, cs, 1) == [] + Bytes(X);
  }

  lemma {:induction false} TwoApp(r: Request)
    requires r == Request(3, NO_ID, X)
    ensures AppBytes(TwoContexts(), r, 0) == Bytes(A) + [2, 0] + Bytes(X)
  {
    TwoSource(r);
    TwoBytes(TwoContexts().ctxs);
    hide CtxsBytes, Source;
    assert Bytes(A) + [2, 0] + Bytes(X) + [] == Bytes(A) + [2, 0] + Bytes(X);
  }

  lemma {:induction false} TwoBody(r: Request)
    requires r == Request(3, NO_ID, X)
    ensures Body(TwoContexts(), r) == [1, 0] + Bytes(A) + [2, 0] + Bytes(X)
  {
    var t := TwoContexts();
    TwoApp(r);
    OneBody(t, r);
    hide *;
    var a, x := Bytes(A), Bytes(X);
    assert [1, 0] + (a + [2, 0] + x) == [1, 0] + a + [2, 0] + x;
  }

  lemma {:induction false} OneBody(t: Tables, r: Request)
    requires |t.apps| == 1 && r.apid == NO_ID
    ensures Body(t, r) == [1, 0] + AppBytes(t, r, 0)
  {
    hide AppBytes;
    assert AppsBytes(t, r, 0) == [];
    assert AppsBytes(t, r, 1) == [] + AppBytes(t, r, 0);
    assert U16(1) == [1, 0];
    hide AppsBytes, U16;
    assert [] + AppBytes(t, r, 0) == AppBytes(t, r, 0);
  }

  lemma {:induction false} TwoParsed(c: seq<Byte>)
    requires c == [1, 0] + Bytes(A) + [2, 0] + Bytes(X) + Remo()
    ensures Parse(3, c) == Got([AppInfo(Bytes(A), [CtxInfo(Bytes(X), 0, 0, []), CtxInfo(Remo(), 0, 0, [])], [])], 16)
  {
    assert ReadCount(c, 0) == Got(1, 2) && ReadCount(c, 6) == Got(2, 8);
    assert c[2..6] == Bytes(A) && c[8..12] == Bytes(X) && c[12..16] == Remo();
    hide ReadCount;
    var one, two := CtxInfo(Bytes(X), 0, 0, []), CtxInfo(Remo(), 0, 0, []);
    assert ParseCtx(3, c, 8) == Got(one, 12) && ParseCtx(3, c, 12) == Got(two, 16);
    hide ParseCtx;
    assert ParseCtxs(3, c, 16, 0) == Got([], 16);
    assert ParseCtxs(3, c, 12, 1) == Got([two] + [], 16);
    assert [two] + [] == [two] && [one] + [two] == [one, two];
    assert ParseCtxs(3, c, 8, 2) == Got([one, two], 16);
    hide ParseCtxs;
    assert ParseApp(3, c, 2) == Got(AppInfo(Bytes(A), [one, two], []), 16);
    hide ParseApp;
    assert ParseApps(3, c, 16, 0) == Got([], 16);
    var info := AppInfo(Bytes(A), [one, two], []);
    assert [info] + [] == [info];
  }

  /** The count is announced before contexts that do not match are skipped, so the library takes what
      follows for a context: an application with the contexts X and Y, asked for all contexts named X. */
  lemma {:induction false} UnfilteredCount()
    ensures var b := Reply(TwoContexts(), Request(3, NO_ID, X));
      |b| > 5 && b[4] == 3 &&
      Parse(b[4], b[5..]) == Got([AppInfo(Bytes(A), [CtxInfo(Bytes(X), 0, 0, []), CtxInfo(Remo(), 0, 0, [])], [])], 16)
  {
    var r := Request(3, NO_ID, X);
    var b := Reply(TwoContexts(), r);
    assert Status(TwoContexts(), r) == 3;
    hide Status;
    ReplyParts(TwoContexts(), r, []);
    TwoBody(r);
    hide *;
    assert b + [] == b;
    assert Remo() + [] == Remo();
    TwoParsed(b[5..]);
  }
}

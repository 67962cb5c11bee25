/** The GET_LOG_INFO reply that the daemon builds from the registry for a request. */
module LogInfoReply {
  import opened Ids
  import opened Registry
  import opened RegistryIndex
  import opened LogInfo

  const SERVICE_ID := 3
  const NO_MATCHING_CONTEXT := 8

  /** What ends the reply. */
  function Remo(): (r: seq<Byte>)
    ensures |r| == 4
  {
    [0x72, 0x65, 0x6d, 0x6f]
  }

  /** An empty identifier stands for all. */
  datatype Request = Request(option: int, apid: Id, ctid: Id)

  // ---- what a request asks for

  function CtxInfoOf(option: int, c: Context): CtxInfo {
    CtxInfo(Bytes(c.ctid),
            if WithLevel(option) then c.level else 0,
            if WithStatus(option) then c.status else 0,
            if WithText(option) then c.description else [])
  }

  function CtxInfos(option: int, cs: seq<Context>): (r: seq<CtxInfo>)
    ensures |r| == |cs| && forall j :: 0 <= j < |cs| ==> r[j] == CtxInfoOf(option, cs[j])
  {
    seq(|cs|, j requires 0 <= j < |cs| => CtxInfoOf(option, cs[j]))
  }

  function AppInfoOf(option: int, a: Application, cs: seq<Context>): AppInfo {
    AppInfo(Bytes(a.apid), CtxInfos(option, cs), if WithText(option) then a.description else [])
  }

  /** All contexts of the table that belong to an application and match, in table order. */
  function Matching(ctxs: seq<Context>, apid: Id, ctid: Id): seq<Context> {
    if ctxs == [] then []
    else
      var first := if ctxs[0].apid == apid && Shown(ctid, ctxs[0]) then [ctxs[0]] else [];
      first + Matching(ctxs[1..], apid, ctid)
  }

  /** All applications that match, each with all of its contexts that match. */
  function Wanted(apps: seq<Application>, ctxs: seq<Context>, r: Request): seq<AppInfo> {
    if apps == [] then []
    else
      var first := if r.apid == NO_ID || apps[0].apid == r.apid
                   then [AppInfoOf(r.option, apps[0], Matching(ctxs, apps[0].apid, r.ctid))] else [];
      first + Wanted(apps[1..], ctxs, r)
  }

  // ---- what the daemon computes

  function NumApps(t: Tables, r: Request): nat {
    if r.apid == NO_ID then |t.apps| else if FindApp(t.apps, r.apid) < |t.apps| then 1 else 0
  }

  function NumCtxs(t: Tables, r: Request): int {
    if r.apid == NO_ID then |t.ctxs|
    else if FindApp(t.apps, r.apid) == |t.apps| then 0
    else if r.ctid == NO_ID then t.apps[FindApp(t.apps, r.apid)].count
    else if FindCtx(t.ctxs, r.apid, r.ctid) < |t.ctxs| then 1 else 0
  }

  function Status(t: Tables, r: Request): int {
    if NumApps(t, r) != 0 && NumCtxs(t, r) != 0 then r.option else NO_MATCHING_CONTEXT
  }

  function CtxBytes(option: int, c: Context): seq<Byte> {
    EncodeCtx(option, CtxInfoOf(option, c))
  }

  predicate Shown(ctid: Id, c: Context) {
    ctid == NO_ID || c.ctid == ctid
  }

  /** The loop over the first n contexts of a slice. */
  function CtxsBytes(option: int, ctid: Id, cs: seq<Context>, n: nat): seq<Byte>
    requires n <= |cs|
  {
    if n == 0 then []
    else CtxsBytes(option, ctid, cs, n - 1) + (if Shown(ctid, cs[n - 1]) then CtxBytes(option, cs[n - 1]) else [])
  }

  /** The contexts that the counters give to the application at index i. */
  function Slice(t: Tables, i: nat): seq<Context>
    requires i < |t.apps|
  {
    var o := Offset(t.apps, i);
    if 0 <= o <= o + t.apps[i].count <= |t.ctxs| then t.ctxs[o..o + t.apps[i].count] else []
  }

  /** What the loop runs over: the one context that was found, or the slice. */
  function Source(t: Tables, r: Request, i: nat): seq<Context>
    requires i < |t.apps|
  {
    if r.apid != NO_ID && r.ctid != NO_ID then
      var k := FindCtx(t.ctxs, r.apid, r.ctid);
      if k < |t.ctxs| then [t.ctxs[k]] else []
    else
      Slice(t, i)
  }

  function AppText(option: int, a: Application): seq<Byte> {
    if WithText(option) then Text(a.description) else []
  }

  function AppHead(t: Tables, r: Request, i: nat): (s: seq<Byte>)
    requires i < |t.apps|
    ensures |s| == 6
  {
    Bytes(t.apps[i].apid) + U16(|Source(t, r, i)|)
  }

  /** The bytes of one application; the announced number is a 16-bit variable. */
  function AppBytes(t: Tables, r: Request, i: nat): seq<Byte>
    requires i < |t.apps|
  {
    var cs := Source(t, r, i);
    AppHead(t, r, i) + CtxsBytes(r.option, r.ctid, cs, |cs| % 0x1_0000) + AppText(r.option, t.apps[i])
  }

  /** Where the k-th reported application stands. */
  function Index(t: Tables, r: Request, k: nat): (i: nat)
    requires k < NumApps(t, r)
    ensures i < |t.apps|
  {
    if r.apid == NO_ID then k else FindApp(t.apps, r.apid)
  }

  function AppsBytes(t: Tables, r: Request, n: nat): seq<Byte>
    requires n <= NumApps(t, r)
  {
    if n == 0 then [] else AppsBytes(t, r, n - 1) + AppBytes(t, r, Index(t, r, n - 1))
  }

  function Head(t: Tables, r: Request): (s: seq<Byte>)
    ensures |s| == 5
  {
    U32(SERVICE_ID) + [S8(Status(t, r))]
  }

  /** The number of applications is a 16-bit variable, too; with none, not even the number is written. */
  function Body(t: Tables, r: Request): seq<Byte> {
    var n := NumApps(t, r) % 0x1_0000;
    if n == 0 then [] else U16(n) + AppsBytes(t, r, n)
  }

  function Reply(t: Tables, r: Request): seq<Byte> {
    Head(t, r) + Body(t, r) + Remo()
  }

  // ---- the size computed before

  function CtxSize(option: int): nat {
    4 + (if WithLevel(option) then 1 else 0) + (if WithStatus(option) then 1 else 0)
  }

  function CtxTexts(cs: seq<Context>, n: nat): nat
    requires n <= |cs|
  {
    if n == 0 then 0 else CtxTexts(cs, n - 1) + 2 + |cs[n - 1].description|
  }

  function AppTexts(apps: seq<Application>, n: nat): nat
    requires n <= |apps|
  {
    if n == 0 then 0 else AppTexts(apps, n - 1) + 2 + |apps[n - 1].description|
  }

  function TextSize(t: Tables, r: Request): nat {
    if r.apid == NO_ID then CtxTexts(t.ctxs, |t.ctxs|) + AppTexts(t.apps, |t.apps|)
    else
      var i := FindApp(t.apps, r.apid);
      if i == |t.apps| then 0
      else CtxTexts(Source(t, r, i), |Source(t, r, i)|) + 2 + |t.apps[i].description|
  }

  function DataSize(t: Tables, r: Request): int {
    4 + 1 + 4 + NumApps(t, r) * 6 + NumCtxs(t, r) * CtxSize(r.option) + 2
    + if WithText(r.option) then TextSize(t, r) else 0
  }
}

/** The GET_LOG_INFO reply: what the daemon writes, what the client library reads. */
module LogInfo {
  import opened Ids

  /** One context of a reply; what the option leaves out is zero. */
  datatype CtxInfo = CtxInfo(ctid: seq<Byte>, level: int, status: int, description: seq<Byte>)

  datatype AppInfo = AppInfo(apid: seq<Byte>, ctxs: seq<CtxInfo>, description: seq<Byte>)

  predicate WithLevel(option: int) {
    option == 4 || option == 6 || option == 7
  }

  predicate WithStatus(option: int) {
    option == 5 || option == 6 || option == 7
  }

  predicate WithText(option: int) {
    option == 7
  }

  // ---- writing

  /** A 16-bit field, least significant byte first; larger values lose their upper part. */
  function U16(n: nat): (r: seq<Byte>)
    ensures |r| == 2
  {
    [n % 256, (n / 256) % 256]
  }

  function U32(n: nat): (r: seq<Byte>)
    ensures |r| == 4
  {
    [n % 256, (n / 0x100) % 256, (n / 0x1_0000) % 256, (n / 0x100_0000) % 256]
  }

  /** A signed byte. */
  function S8(x: int): Byte {
    x % 256
  }

  function Text(s: seq<Byte>): seq<Byte> {
    U16(|s|) + s
  }

  function EncodeCtx(option: int, c: CtxInfo): seq<Byte> {
    c.ctid
    + (if WithLevel(option) then [S8(c.level)] else [])
    + (if WithStatus(option) then [S8(c.status)] else [])
    + (if WithText(option) then Text(c.description) else [])
  }

  /** The first n contexts. */
  function EncodeCtxs(option: int, cs: seq<CtxInfo>, n: nat): seq<Byte>
    requires n <= |cs|
    decreases n
  {
    if n == 0 then [] else EncodeCtx(option, cs[0]) + EncodeCtxs(option, cs[1..], n - 1)
  }

  /** The count is a 16-bit variable, and the loop runs to that variable. */
  function EncodeApp(option: int, a: AppInfo): seq<Byte> {
    a.apid + U16(|a.ctxs|) + EncodeCtxs(option, a.ctxs, |a.ctxs| % 0x1_0000)
    + (if WithText(option) then Text(a.description) else [])
  }

  function EncodeApps(option: int, infos: seq<AppInfo>, n: nat): seq<Byte>
    requires n <= |infos|
    decreases n
  {
    if n == 0 then [] else EncodeApp(option, infos[0]) + EncodeApps(option, infos[1..], n - 1)
  }

  /** Everything behind the status byte. */
  function Encode(option: int, infos: seq<AppInfo>): seq<Byte> {
    U16(|infos|) + EncodeApps(option, infos, |infos| % 0x1_0000)
  }

  // ---- reading

  datatype Parsed<T> = Failed | Got(value: T, pos: nat)

  /** The library reads a 16-bit count but returns it as an unsigned char. */
  function ReadCount(b: seq<Byte>, pos: nat): Parsed<nat> {
    if pos + 2 <= |b| then Got((b[pos] as int + 256 * b[pos + 1] as int) % 256, pos + 2) else Failed
  }

  function ReadSigned(b: seq<Byte>, pos: nat): Parsed<int> {
    if pos + 1 <= |b| then Got(if b[pos] < 128 then b[pos] as int else b[pos] as int - 256, pos + 1) else Failed
  }

  function ReadBytes(b: seq<Byte>, pos: nat, n: nat): Parsed<seq<Byte>> {
    if pos + n <= |b| then Got(b[pos..pos + n], pos + n) else Failed
  }

  function ReadText(b: seq<Byte>, pos: nat): Parsed<seq<Byte>> {
    var n := ReadCount(b, pos);
    if n.Failed? then Failed else ReadBytes(b, n.pos, n.value)
  }

  function ParseCtx(option: int, b: seq<Byte>, pos: nat): Parsed<CtxInfo> {
    var id := ReadBytes(b, pos, 4);
    if id.Failed? then Failed else
    var level := if WithLevel(option) then ReadSigned(b, id.pos) else Got(0, id.pos);
    if level.Failed? then Failed else
    var status := if WithStatus(option) then ReadSigned(b, level.pos) else Got(0, level.pos);
    if status.Failed? then Failed else
    var text := if WithText(option) then ReadText(b, status.pos) else Got([], status.pos);
    if text.Failed? then Failed
    else Got(CtxInfo(id.value, level.value, status.value, text.value), text.pos)
  }

  function ParseCtxs(option: int, b: seq<Byte>, pos: nat, n: nat): (r: Parsed<seq<CtxInfo>>)
    ensures r.Got? ==> |r.value| == n
    decreases n
  {
    if n == 0 then Got([], pos)
    else
      var c := ParseCtx(option, b, pos);
      if c.Failed? then Failed
      else
        var rest := ParseCtxs(option, b, c.pos, n - 1);
        if rest.Failed? then Failed else Got([c.value] + rest.value, rest.pos)
  }

  function ParseApp(option: int, b: seq<Byte>, pos: nat): Parsed<AppInfo> {
    var id := ReadBytes(b, pos, 4);
    if id.Failed? then Failed else
    var n := ReadCount(b, id.pos);
    if n.Failed? then Failed else
    var cs := ParseCtxs(option, b, n.pos, n.value);
    if cs.Failed? then Failed else
    var text := if WithText(option) then ReadText(b, cs.pos) else Got([], cs.pos);
    if text.Failed? then Failed
    else Got(AppInfo(id.value, cs.value, text.value), text.pos)
  }

  function ParseApps(option: int, b: seq<Byte>, pos: nat, n: nat): (r: Parsed<seq<AppInfo>>)
    ensures r.Got? ==> |r.value| == n
    decreases n
  {
    if n == 0 then Got([], pos)
    else
      var a := ParseApp(option, b, pos);
      if a.Failed? then Failed
      else
        var rest := ParseApps(option, b, a.pos, n - 1);
        if rest.Failed? then Failed else Got([a.value] + rest.value, rest.pos)
  }

  /** The library accepts the statuses 3 to 7 and takes the status as the option. */
  function Parse(status: int, b: seq<Byte>): Parsed<seq<AppInfo>> {
    if status < 3 || status > 7 then Failed
    else
      var n := ReadCount(b, 0);
      if n.Failed? then Failed else ParseApps(status, b, n.pos, n.value)
  }

  // ---- what survives

  /** A context as the option presents it. */
  predicate CtxShape(option: int, c: CtxInfo) {
    && |c.ctid| == 4 && -128 <= c.level < 128 && -128 <= c.status < 128
    && (WithLevel(option) || c.level == 0) && (WithStatus(option) || c.status == 0)
    && (WithText(option) || c.description == [])
  }

  predicate AppShape(option: int, a: AppInfo) {
    && |a.apid| == 4
    && (forall j :: 0 <= j < |a.ctxs| ==> CtxShape(option, a.ctxs[j]))
    && (WithText(option) || a.description == [])
  }

  predicate AppSmall(a: AppInfo) {
    |a.ctxs| < 256 && |a.description| < 256 && forall j :: 0 <= j < |a.ctxs| ==> |a.ctxs[j].description| < 256
  }

  predicate CtxsSmall(cs: seq<CtxInfo>) {
    forall j :: 0 <= j < |cs| ==> |cs[j].description| < 256
  }

  /** Every count and every length fits one byte. */
  predicate Small(infos: seq<AppInfo>) {
    |infos| < 256 && AppsSmall(infos)
  }

  /** b continues with s at pos. */
  predicate At(b: seq<Byte>, pos: nat, s: seq<Byte>) {
    pos + |s| <= |b| && b[pos..pos + |s|] == s
  }

  lemma {:induction false} AtSplit(b: seq<Byte>, pos: nat, s: seq<Byte>, t: seq<Byte>)
    requires At(b, pos, s + t)
    ensures At(b, pos, s) && At(b, pos + |s|, t)
  {
    assert b[pos..pos + |s|] == (s + t)[..|s|];
    assert b[pos + |s|..pos + |s| + |t|] == (s + t)[|s|..];
  }

  lemma {:induction false} CountRead(b: seq<Byte>, pos: nat, n: nat)
    requires At(b, pos, U16(n))
    ensures ReadCount(b, pos) == Got(n % 256, pos + 2)
  {
    assert b[pos] == b[pos..pos + 2][0];
  }

  lemma {:induction false} SignedRead(b: seq<Byte>, pos: nat, x: int)
    requires At(b, pos, [S8(x)]) && -128 <= x < 128
    ensures ReadSigned(b, pos) == Got(x, pos + 1)
  {
    assert b[pos] == b[pos..pos + 1][0];
  }

  /** A text is read back exactly if its length fits one byte. */
  lemma {:induction false} TextRead(b: seq<Byte>, pos: nat, s: seq<Byte>)
    requires At(b, pos, Text(s))
    ensures |s| < 256 ==> ReadText(b, pos) == Got(s, pos + 2 + |s|)
    ensures |s| >= 256 ==> ReadText(b, pos).Failed? || ReadText(b, pos).value != s
  {
    AtSplit(b, pos, U16(|s|), s);
    CountRead(b, pos, |s|);
  }

  lemma {:induction false} CtxRead(option: int, b: seq<Byte>, pos: nat, c: CtxInfo)
    requires At(b, pos, EncodeCtx(option, c)) && CtxShape(option, c)
    ensures |c.description| < 256 ==> ParseCtx(option, b, pos) == Got(c, pos + |EncodeCtx(option, c)|)
    ensures |c.description| >= 256 ==> ParseCtx(option, b, pos).Failed? || ParseCtx(option, b, pos).value != c
  {
    var l := if WithLevel(option) then [S8(c.level)] else [];
    var s := if WithStatus(option) then [S8(c.status)] else [];
    var t := if WithText(option) then Text(c.description) else [];
    AtSplit(b, pos, c.ctid + l + s, t);
    AtSplit(b, pos, c.ctid + l, s);
    AtSplit(b, pos, c.ctid, l);
    hide S8, At, Text, ReadText, ReadSigned;
    CtxFieldsRead(option, b, pos, c);
  }

  lemma {:induction false} CtxFieldsRead(option: int, b: seq<Byte>, pos: nat, c: CtxInfo)
    requires CtxShape(option, c) && At(b, pos, c.ctid)
    requires WithLevel(option) ==> At(b, pos + 4, [S8(c.level)])
    requires WithStatus(option) ==> At(b, pos + 4 + (if WithLevel(option) then 1 else 0), [S8(c.status)])
    requires WithText(option) ==> At(b, pos + 6, Text(c.description))
    ensures ReadBytes(b, pos, 4) == Got(c.ctid, pos + 4)
    ensures WithLevel(option) ==> ReadSigned(b, pos + 4) == Got(c.level, pos + 5)
    ensures WithStatus(option) ==> var p := pos + 4 + (if WithLevel(option) then 1 else 0); ReadSigned(b, p) == Got(c.status, p + 1)
    ensures WithText(option) && |c.description| < 256 ==> ReadText(b, pos + 6) == Got(c.description, pos + 8 + |c.description|)
    ensures WithText(option) && |c.description| >= 256 ==> ReadText(b, pos + 6).Failed? || ReadText(b, pos + 6).value != c.description
    ensures !WithText(option) ==> c.description == []
  {
    if WithLevel(option) {
      SignedRead(b, pos + 4, c.level);
    }
    if WithStatus(option) {
      SignedRead(b, pos + 4 + (if WithLevel(option) then 1 else 0), c.status);
    }
    if WithText(option) {
      TextRead(b, pos + 6, c.description);
    }
  }

  lemma {:induction false} CtxsSmallStep(cs: seq<CtxInfo>)
    requires cs != []
    ensures CtxsSmall(cs) <==> |cs[0].description| < 256 && CtxsSmall(cs[1..])
  {
    if CtxsSmall(cs[1..]) && |cs[0].description| < 256 {
      forall j | 0 <= j < |cs| ensures |cs[j].description| < 256 {
        assert j > 0 ==> cs[j] == cs[1..][j - 1];
      }
    }
  }

  lemma {:induction false} CtxsRead(option: int, b: seq<Byte>, pos: nat, cs: seq<CtxInfo>)
    requires At(b, pos, EncodeCtxs(option, cs, |cs|))
    requires forall j :: 0 <= j < |cs| ==> CtxShape(option, cs[j])
    ensures CtxsSmall(cs) ==> ParseCtxs(option, b, pos, |cs|) == Got(cs, pos + |EncodeCtxs(option, cs, |cs|)|)
    ensures !CtxsSmall(cs) ==> ParseCtxs(option, b, pos, |cs|).Failed? || ParseCtxs(option, b, pos, |cs|).value != cs
    decreases |cs|
  {
    hide ParseCtx, EncodeCtx, CtxShape, CtxsSmall;
    if cs == [] {
      EmptySmall();
    } else {
      var first, rest := EncodeCtx(option, cs[0]), EncodeCtxs(option, cs[1..], |cs| - 1);
      AtSplit(b, pos, first, rest);
      hide At;
      CtxRead(option, b, pos, cs[0]);
      CtxsSmallStep(cs);
      assert cs == [cs[0]] + cs[1..];
      if |cs[0].description| < 256 {
        CtxsRead(option, b, pos + |first|, cs[1..]);
        CtxsReadStep(option, b, pos, cs, pos + |first|);
        assert |EncodeCtxs(option, cs, |cs|)| == |first| + |rest|;
      } else {
        var r := ParseCtxs(option, b, pos, |cs|);
        assert r.Got? ==> r.value[0] == ParseCtx(option, b, pos).value;
      }
    }
  }

  lemma {:induction false} EmptySmall()
    ensures CtxsSmall([])
  {
  }

  lemma {:induction false} CtxsReadStep(option: int, b: seq<Byte>, pos: nat, cs: seq<CtxInfo>, q: nat)
    requires cs != [] && ParseCtx(option, b, pos) == Got(cs[0], q)
    ensures var rest := ParseCtxs(option, b, q, |cs| - 1); var r := ParseCtxs(option, b, pos, |cs|);
      && (rest.Got? && rest.value == cs[1..] ==> r == Got(cs, rest.pos))
      && (rest.Failed? || rest.value != cs[1..] ==> r.Failed? || r.value != cs)
  {
    hide ParseCtx;
    var rest := ParseCtxs(option, b, q, |cs| - 1);
    if rest.Got? {
      assert cs == [cs[0]] + cs[1..];
      assert ([cs[0]] + rest.value)[1..] == rest.value;
    }
  }

  lemma {:induction false} AppSmallParts(a: AppInfo)
    ensures AppSmall(a) <==> |a.ctxs| < 256 && |a.description| < 256 && CtxsSmall(a.ctxs)
  {
  }

  /** The parts of an encoded application, where they stand. */
  lemma {:induction false} AppParts(option: int, b: seq<Byte>, pos: nat, a: AppInfo)
    requires At(b, pos, EncodeApp(option, a)) && |a.apid| == 4
    ensures var n := |a.ctxs|; var body := EncodeCtxs(option, a.ctxs, n % 0x1_0000);
      && ReadBytes(b, pos, 4) == Got(a.apid, pos + 4)
      && ReadCount(b, pos + 4) == Got(n % 256, pos + 6)
      && At(b, pos + 6, body)
      && (WithText(option) ==> At(b, pos + 6 + |body|, Text(a.description)))
      && |EncodeApp(option, a)| == 6 + |body| + (if WithText(option) then |Text(a.description)| else 0)
  {
    var n := |a.ctxs|;
    var t := if WithText(option) then Text(a.description) else [];
    var body := EncodeCtxs(option, a.ctxs, n % 0x1_0000);
    AtSplit(b, pos, a.apid + U16(n) + body, t);
    AtSplit(b, pos, a.apid + U16(n), body);
    AtSplit(b, pos, a.apid, U16(n));
    CountRead(b, pos + 4, n);
  }

  /** An application is read as its identifier, its contexts and its text, one behind the other. */
  lemma {:induction false} AppReadStep(option: int, b: seq<Byte>, pos: nat, apid: seq<Byte>, k: nat)
    requires ReadBytes(b, pos, 4) == Got(apid, pos + 4) && ReadCount(b, pos + 4) == Got(k, pos + 6)
    ensures var cs := ParseCtxs(option, b, pos + 6, k); var r := ParseApp(option, b, pos);
      && (cs.Failed? ==> r.Failed?)
      && (cs.Got? && !WithText(option) ==> r == Got(AppInfo(apid, cs.value, []), cs.pos))
      && (cs.Got? && WithText(option) ==>
            var t := ReadText(b, cs.pos);
            if t.Failed? then r.Failed? else r == Got(AppInfo(apid, cs.value, t.value), t.pos))
  {
    hide ReadBytes, ReadCount, ParseCtxs, ReadText, WithText;
  }

  lemma {:induction false} AppRead(option: int, b: seq<Byte>, pos: nat, a: AppInfo)
    requires At(b, pos, EncodeApp(option, a)) && AppShape(option, a)
    ensures AppSmall(a) ==> ParseApp(option, b, pos) == Got(a, pos + |EncodeApp(option, a)|)
    ensures !AppSmall(a) ==> ParseApp(option, b, pos).Failed? || ParseApp(option, b, pos).value != a
  {
    hide At, ReadBytes, ReadCount, Text, ParseCtxs, EncodeCtxs, ReadText, CtxShape, EncodeApp, AppSmall, CtxsSmall, ParseApp;
    var n := |a.ctxs|;
    AppParts(option, b, pos, a);
    AppReadStep(option, b, pos, a.apid, n % 256);
    AppSmallParts(a);
    TextLength(a.description);
    if n < 256 {
      CtxsRead(option, b, pos + 6, a.ctxs);
      if CtxsSmall(a.ctxs) && WithText(option) {
        TextRead(b, pos + 6 + |EncodeCtxs(option, a.ctxs, n)|, a.description);
      }
    }
  }

  lemma {:induction false} TextLength(s: seq<Byte>)
    ensures |Text(s)| == 2 + |s|
  {
  }

  predicate AppsSmall(infos: seq<AppInfo>) {
    forall i :: 0 <= i < |infos| ==> AppSmall(infos[i])
  }

  lemma {:induction false} AppsSmallStep(infos: seq<AppInfo>)
    requires infos != []
    ensures AppsSmall(infos) <==> AppSmall(infos[0]) && AppsSmall(infos[1..])
  {
    hide AppSmall;
    if AppSmall(infos[0]) && AppsSmall(infos[1..]) {
      forall i | 0 <= i < |infos| ensures AppSmall(infos[i]) {
        assert i > 0 ==> infos[i] == infos[1..][i - 1];
      }
    }
  }

  lemma {:induction false} NoAppsSmall()
    ensures AppsSmall([])
  {
  }

  lemma {:induction false} AppsRead(option: int, b: seq<Byte>, pos: nat, infos: seq<AppInfo>)
    requires At(b, pos, EncodeApps(option, infos, |infos|))
    requires forall i :: 0 <= i < |infos| ==> AppShape(option, infos[i])
    ensures (exists p :: ParseApps(option, b, pos, |infos|) == Got(infos, p)) <==> AppsSmall(infos)
    decreases |infos|
  {
    hide ParseApp, EncodeApp, AppShape, AppSmall, AppsSmall, At;
    if infos == [] {
      assert ParseApps(option, b, pos, 0) == Got(infos, pos);
      NoAppsSmall();
    } else {
      AppsSmallStep(infos);
      var first := EncodeApp(option, infos[0]);
      AtSplit(b, pos, first, EncodeApps(option, infos[1..], |infos| - 1));
      AppRead(option, b, pos, infos[0]);
      if AppSmall(infos[0]) {
        AppsRead(option, b, pos + |first|, infos[1..]);
        AppsReadStep(option, b, pos, infos);
      } else {
        var r := ParseApps(option, b, pos, |infos|);
        assert r.Got? ==> r.value[0] == ParseApp(option, b, pos).value;
      }
    }
  }

  lemma {:induction false} AppsReadStep(option: int, b: seq<Byte>, pos: nat, infos: seq<AppInfo>)
    requires infos != [] && ParseApp(option, b, pos).Got? && ParseApp(option, b, pos).value == infos[0]
    ensures var q := ParseApp(option, b, pos).pos;
      (exists p :: ParseApps(option, b, pos, |infos|) == Got(infos, p))
      <==> (exists p :: ParseApps(option, b, q, |infos| - 1) == Got(infos[1..], p))
  {
    hide ParseApp;
    var q := ParseApp(option, b, pos).pos;
    var rest := ParseApps(option, b, q, |infos| - 1);
    var r := ParseApps(option, b, pos, |infos|);
    if r.Got? && r.value == infos {
      assert infos[1..] == ([infos[0]] + rest.value)[1..];
      assert rest == Got(infos[1..], rest.pos);
    }
    if rest.Got? && rest.value == infos[1..] {
      assert infos == [infos[0]] + infos[1..];
      assert r == Got(infos, rest.pos);
    }
  }

  /** For every option and every list of applications the library reads back exactly what the daemon wrote
      if and only if no announced count and no length exceeds 255. */
  lemma {:induction false} ParseEncode(option: int, infos: seq<AppInfo>, rest: seq<Byte>)
    requires 3 <= option <= 7
    requires forall i :: 0 <= i < |infos| ==> AppShape(option, infos[i])
    ensures (exists p :: Parse(option, Encode(option, infos) + rest) == Got(infos, p)) <==> Small(infos)
  {
    var b := Encode(option, infos) + rest;
    var n := |infos|;
    EncodedCount(option, infos, rest);
    hide At, Encode, EncodeApps, ReadCount, ParseApps, AppShape, AppsSmall;
    if n < 256 {
      AppsRead(option, b, 2, infos);
      assert Parse(option, b) == ParseApps(option, b, 2, n);
    } else {
      assert Parse(option, b).Got? ==> |Parse(option, b).value| == n % 256;
    }
  }

  lemma {:induction false} EncodedCount(option: int, infos: seq<AppInfo>, rest: seq<Byte>)
    ensures var b := Encode(option, infos) + rest; var n := |infos|;
      ReadCount(b, 0) == Got(n % 256, 2) && At(b, 2, EncodeApps(option, infos, n % 0x1_0000))
  {
    hide EncodeApps, ReadCount;
    var b := Encode(option, infos) + rest;
    var body := EncodeApps(option, infos, |infos| % 0x1_0000);
    assert At(b, 0, U16(|infos|) + body);
    AtSplit(b, 0, U16(|infos|), body);
    CountRead(b, 0, |infos|);
  }
}

/** The two passes of the daemon over the registry, and the parser of the client library. */
module LogInfoDaemon {
  import opened Ids
  import opened Registry
  import opened RegistryIndex
  import opened RegistryTable
  import opened LogInfo
  import opened LogInfoReply
  import opened LogInfoReplySize
  import opened LogInfoRoundTrip
  import opened LogInfoMeaning

  // ---- first pass

  /** The entries a request names, -1 if there is none, and how many of each kind will be reported. */
  method Look(list: UserList, r: Request) returns (a: int, k: int, numApps: nat, numCtxs: int)
    requires Indexed(list.View())
    ensures numApps == NumApps(list.View(), r) && numCtxs == NumCtxs(list.View(), r)
    ensures r.apid != NO_ID ==> a == Entry(FindApp(list.applications, r.apid), |list.applications|)
    ensures r.apid != NO_ID && r.ctid != NO_ID && a >= 0 ==> k == Entry(FindCtx(list.contexts, r.apid, r.ctid), |list.contexts|)
  {
    SortedView(list.View());
    hide Indexed, SortedApps, SortedCtxs;
    a, k, numApps, numCtxs := -1, -1, 0, 0;
    if r.apid != NO_ID {
      a := list.FindApplication(r.apid);
      if a >= 0 {
        numApps := 1;
        if r.ctid != NO_ID {
          k := list.FindContext(r.apid, r.ctid);
          numCtxs := if k >= 0 then 1 else 0;
        } else {
          numCtxs := list.applications[a].count;
        }
      }
    } else {
      numApps, numCtxs := |list.applications|, |list.contexts|;
    }
  }

  function Entry(i: nat, n: nat): int {
    if i < n then i else -1
  }

  /** Description lengths of n contexts from an offset on. */
  method CtxTextSize(cs: seq<Context>, offset: nat, n: nat) returns (size: nat)
    requires offset + n <= |cs|
    ensures size == CtxTexts(cs[offset..offset + n], n)
  {
    size := 0;
    var j := 0;
    while j < n
      invariant 0 <= j <= n && size == CtxTexts(cs[offset..offset + n], j)
    {
      size := size + 2 + |cs[offset + j].description|;
      j := j + 1;
    }
  }

  method AppTextSize(apps: seq<Application>) returns (size: nat)
    ensures size == AppTexts(apps, |apps|)
  {
    size := 0;
    var i := 0;
    while i < |apps|
      invariant 0 <= i <= |apps| && size == AppTexts(apps, i)
    {
      size := size + 2 + |apps[i].description|;
      i := i + 1;
    }
  }

  lemma {:induction false} SourceIs(t: Tables, r: Request, i: nat)
    requires Indexed(t) && i < |t.apps|
    ensures var o := Offset(t.apps, i); var n := t.apps[i].count; var k := FindCtx(t.ctxs, r.apid, r.ctid);
      && 0 <= o <= o + n <= |t.ctxs|
      && Source(t, r, i) == if r.apid != NO_ID && r.ctid != NO_ID then (if k < |t.ctxs| then [t.ctxs[k]] else []) else t.ctxs[o..o + n]
  {
    SliceIs(t, i);
    hide Indexed, Offset, FindCtx;
  }

  /** The reported contexts of the application at index a: the one at k, or those from an offset on. */
  predicate SourceAt(t: Tables, r: Request, a: nat, offsetBase: nat, k: int)
    requires a < |t.apps|
  {
    if r.apid != NO_ID && r.ctid != NO_ID then
      -1 <= k < |t.ctxs| && Source(t, r, a) == if k >= 0 then [t.ctxs[k]] else []
    else
      offsetBase + |Source(t, r, a)| <= |t.ctxs| && Source(t, r, a) == t.ctxs[offsetBase..offsetBase + |Source(t, r, a)|]
  }

  lemma {:induction false} SourceFound(t: Tables, r: Request, a: nat, k: int)
    requires Indexed(t) && a < |t.apps|
    requires r.apid != NO_ID && r.ctid != NO_ID ==> k == Entry(FindCtx(t.ctxs, r.apid, r.ctid), |t.ctxs|)
    ensures Offset(t.apps, a) >= 0 && SourceAt(t, r, a, Offset(t.apps, a), k)
  {
    SourceIs(t, r, a);
    hide Indexed, Source, FindCtx, Offset;
  }

  lemma {:induction false} AnnouncedIs(t: Tables, r: Request, a: nat)
    requires Indexed(t) && a < |t.apps| && (r.apid != NO_ID ==> a == FindApp(t.apps, r.apid))
    ensures (if r.apid != NO_ID then NumCtxs(t, r) else t.apps[a].count) == |Source(t, r, a)|
  {
    SliceIs(t, a);
    hide Indexed, Slice, FindCtx, Offset;
  }

  /** Texts of the contexts of one application that will be reported. */
  method SourceTextSize(t: Tables, r: Request, ghost a: nat, offsetBase: nat, k: int, n: nat) returns (size: nat)
    requires r.apid != NO_ID && a < |t.apps| && SourceAt(t, r, a, offsetBase, k) && n == |Source(t, r, a)|
    ensures size == CtxTexts(Source(t, r, a), n)
  {
    hide Source, CtxTexts;
    if r.ctid != NO_ID {
      NoText();
      size := 0;
      if k >= 0 {
        size := 2 + |t.ctxs[k].description|;
        OneText(t.ctxs[k]);
      }
    } else {
      size := CtxTextSize(t.ctxs, offsetBase, n);
    }
  }

  method TextsOf(list: UserList, r: Request, a: int, k: int, numCtxs: int) returns (size: nat)
    requires Indexed(list.View()) && numCtxs == NumCtxs(list.View(), r)
    requires r.apid != NO_ID ==> a == Entry(FindApp(list.applications, r.apid), |list.applications|)
    requires r.apid != NO_ID && r.ctid != NO_ID && a >= 0 ==> k == Entry(FindCtx(list.contexts, r.apid, r.ctid), |list.contexts|)
    ensures size == TextSize(list.View(), r)
  {
    hide Indexed, Source, SourceAt, CtxTexts, FindCtx, FindApp, AppTexts, Offset, NumCtxs;
    size := 0;
    if r.apid != NO_ID {
      if a >= 0 {
        var t := Tables(list.applications, list.contexts);
        var offsetBase := list.OffsetOf(a);
        SourceFound(t, r, a, k);
        AnnouncedIs(t, r, a);
        size := SourceTextSize(t, r, a, offsetBase, k, numCtxs);
        size := size + 2 + |list.applications[a].description|;
      }
    } else {
      var n := CtxTextSize(list.contexts, 0, |list.contexts|);
      assert list.contexts[0..|list.contexts|] == list.contexts;
      var m := AppTextSize(list.applications);
      size := n + m;
    }
  }

  lemma {:induction false} OneText(c: Context)
    ensures CtxTexts([c], 1) == 2 + |c.description|
  {
    assert CtxTexts([c], 0) == 0;
  }

  lemma {:induction false} NoText()
    ensures CtxTexts([], 0) == 0
  {
  }

  /** The first pass. */
  method SizeOf(list: UserList, r: Request) returns (a: int, k: int, numApps: nat, numCtxs: int, size: int)
    requires Indexed(list.View())
    ensures numApps == NumApps(list.View(), r) && numCtxs == NumCtxs(list.View(), r)
    ensures r.apid != NO_ID ==> a == Entry(FindApp(list.applications, r.apid), |list.applications|)
    ensures r.apid != NO_ID && r.ctid != NO_ID && a >= 0 ==> k == Entry(FindCtx(list.contexts, r.apid, r.ctid), |list.contexts|)
    ensures size == DataSize(list.View(), r)
  {
    hide Indexed, NumApps, NumCtxs, TextSize, FindApp, FindCtx;
    a, k, numApps, numCtxs := Look(list, r);
    size := 4 + 1 + 4;
    var sizecont := 4;
    if r.option == 4 || r.option == 6 || r.option == 7 {
      sizecont := sizecont + 1;
    }
    if r.option == 5 || r.option == 6 || r.option == 7 {
      sizecont := sizecont + 1;
    }
    size := size + numApps * (4 + 2) + numCtxs * sizecont;
    size := size + 2;
    if r.option == 7 {
      var texts := TextsOf(list, r, a, k, numCtxs);
      size := size + texts;
    }
  }

  // ---- second pass

  /** A buffer with s copied into it. */
  function Copied(b: seq<Byte>, offset: nat, s: seq<Byte>): (r: seq<Byte>)
    requires offset + |s| <= |b|
    ensures |r| == |b|
  {
    b[..offset] + s + b[offset + |s|..]
  }

  lemma {:induction false} CopiedTwice(b: seq<Byte>, offset: nat, s: seq<Byte>, u: seq<Byte>)
    requires offset + |s| + |u| <= |b|
    ensures Copied(Copied(b, offset, s), offset + |s|, u) == Copied(b, offset, s + u)
  {
    var r := Copied(b, offset, s);
    assert r[..offset + |s|] == b[..offset] + s;
    assert r[offset + |s| + |u|..] == b[offset + |s| + |u|..];
  }

  lemma {:induction false} CopiedNothing(b: seq<Byte>, offset: nat)
    requires offset <= |b|
    ensures Copied(b, offset, []) == b
  {
  }

  method Put(buf: array<Byte>, offset: nat, s: seq<Byte>) returns (next: nat)
    requires offset + |s| <= buf.Length
    modifies buf
    ensures next == offset + |s| && buf[..] == Copied(old(buf[..]), offset, s)
  {
    var i := 0;
    while i < |s|
      invariant 0 <= i <= |s|
      invariant forall j :: 0 <= j < offset || offset + i <= j < buf.Length ==> buf[j] == old(buf[j])
      invariant forall j :: 0 <= j < i ==> buf[offset + j] == s[j]
    {
      buf[offset + i] := s[i];
      i := i + 1;
    }
    next := offset + |s|;
  }

  /** Continue behind what has been copied to the buffer from a start on. */
  method PutMore(buf: array<Byte>, ghost before: seq<Byte>, ghost start: nat, ghost done: seq<Byte>, offset: nat, s: seq<Byte>)
    returns (next: nat)
    requires start + |done| + |s| <= |before| && buf[..] == Copied(before, start, done) && offset == start + |done|
    modifies buf
    ensures next == offset + |s| && buf[..] == Copied(before, start, done + s)
  {
    CopiedTwice(before, start, done, s);
    hide Copied;
    next := Put(buf, offset, s);
  }

  method PutText(buf: array<Byte>, offset: nat, s: seq<Byte>) returns (next: nat)
    requires offset + |Text(s)| <= buf.Length
    modifies buf
    ensures next == offset + |Text(s)| && buf[..] == Copied(old(buf[..]), offset, Text(s))
  {
    CopiedTwice(buf[..], offset, U16(|s|), s);
    hide Copied, U16;
    next := Put(buf, offset, U16(|s|));
    next := Put(buf, next, s);
  }

  method PutCtx(buf: array<Byte>, offset: nat, option: int, c: Context) returns (next: nat)
    requires offset + |CtxBytes(option, c)| <= buf.Length
    modifies buf
    ensures next == offset + |CtxBytes(option, c)| && buf[..] == Copied(old(buf[..]), offset, CtxBytes(option, c))
    ensures buf[..] == Copied(old(buf[..]), offset,
      [c.ctid.a, c.ctid.b, c.ctid.c, c.ctid.d]
      + (if option == 4 || option == 6 || option == 7 then [c.level % 256] else [])
      + (if option == 5 || option == 6 || option == 7 then [c.status % 256] else [])
      + (if option == 7 then [|c.description| % 256, |c.description| / 256 % 256] + c.description else []))
  {
    CtxBytesSize(option, c);
    CtxLayout(option, c);
    hide Text, Bytes, U16, Copied, S8;
    ghost var before := buf[..];
    var id := Bytes(c.ctid);
    ghost var level := if WithLevel(option) then [S8(c.level)] else [];
    ghost var status := if WithStatus(option) then [S8(c.status)] else [];
    ghost var text := if WithText(option) then Text(c.description) else [];
    assert CtxBytes(option, c) == id + level + status + text;
    next := Put(buf, offset, id);
    if option == 4 || option == 6 || option == 7 {
      next := PutMore(buf, before, offset, id, next, [S8(c.level)]);
    }
    assert id + level == if level == [] then id else id + [S8(c.level)];
    if option == 5 || option == 6 || option == 7 {
      next := PutMore(buf, before, offset, id + level, next, [S8(c.status)]);
    }
    assert id + level + status == if status == [] then id + level else id + level + [S8(c.status)];
    if option == 7 {
      CopiedTwice(before, offset, id + level + status, Text(c.description));
      next := PutText(buf, next, c.description);
    }
    assert id + level + status + text == if text == [] then id + level + status else id + level + status + Text(c.description);
  }

  /** The context at j of what is reported for one application. */
  method ContextAt(t: Tables, r: Request, ghost a: nat, offsetBase: nat, k: int, count: nat, j: nat) returns (c: Context)
    requires a < |t.apps| && SourceAt(t, r, a, offsetBase, k)
    requires j < count == |Source(t, r, a)| % 0x1_0000
    ensures c == Source(t, r, a)[j]
  {
    hide Source;
    if !(count == 1 && r.apid != NO_ID && r.ctid != NO_ID) {
      c := t.ctxs[offsetBase + j];
    } else {
      c := t.ctxs[k];
    }
  }

  lemma {:induction false} CtxsBytesGrow(option: int, ctid: Id, cs: seq<Context>, m: nat, n: nat)
    requires m <= n <= |cs|
    ensures |CtxsBytes(option, ctid, cs, m)| <= |CtxsBytes(option, ctid, cs, n)|
  {
    hide CtxBytes;
    if m < n {
      CtxsBytesGrow(option, ctid, cs, m, n - 1);
    }
  }

  /** The loop over the contexts of one application. */
  method PutCtxs(t: Tables, r: Request, buf: array<Byte>, offset: nat, ghost a: nat, offsetBase: nat, k: int, count: nat)
    returns (next: nat)
    requires a < |t.apps| && SourceAt(t, r, a, offsetBase, k) && count == |Source(t, r, a)| % 0x1_0000
    requires offset + |CtxsBytes(r.option, r.ctid, Source(t, r, a), count)| <= buf.Length
    modifies buf
    ensures var s := CtxsBytes(r.option, r.ctid, Source(t, r, a), count);
      next == offset + |s| && buf[..] == Copied(old(buf[..]), offset, s)
  {
    hide Copied, Source, SourceAt, CtxBytes;
    ghost var cs := Source(t, r, a);
    ghost var before := buf[..];
    next := offset;
    var j := 0;
    CopiedNothing(before, offset);
    while j < count
      invariant 0 <= j <= count && next == offset + |CtxsBytes(r.option, r.ctid, cs, j)| <= buf.Length
      invariant buf[..] == Copied(before, offset, CtxsBytes(r.option, r.ctid, cs, j))
    {
      var context := ContextAt(t, r, a, offsetBase, k, count, j);
      CtxsBytesGrow(r.option, r.ctid, cs, j + 1, count);
      if r.ctid == NO_ID || (r.ctid != NO_ID && context.ctid == r.ctid) {
        CopiedTwice(before, offset, CtxsBytes(r.option, r.ctid, cs, j), CtxBytes(r.option, context));
        next := PutCtx(buf, next, r.option, context);
      } else {
        assert CtxsBytes(r.option, r.ctid, cs, j + 1) == CtxsBytes(r.option, r.ctid, cs, j);
      }
      j := j + 1;
    }
  }

  /** One application at offset; n is the number of contexts announced. */
  method PutApp(t: Tables, r: Request, buf: array<Byte>, offset: nat, a: nat, offsetBase: nat, k: int, n: nat) returns (next: nat)
    requires a < |t.apps| && SourceAt(t, r, a, offsetBase, k) && n == |Source(t, r, a)|
    requires offset + |AppBytes(t, r, a)| <= buf.Length
    modifies buf
    ensures var s := AppBytes(t, r, a); next == offset + |s| && buf[..] == Copied(old(buf[..]), offset, s)
    ensures var app, m := t.apps[a], n % 0x1_0000;
      buf[..] == Copied(old(buf[..]), offset,
        [app.apid.a, app.apid.b, app.apid.c, app.apid.d] + [m % 256, m / 256]
        + CtxsBytes(r.option, r.ctid, Source(t, r, a), m)
        + (if r.option == 7 then [|app.description| % 256, |app.description| / 256 % 256] + app.description else []))
  {
    hide Copied, Source, SourceAt, CtxsBytes, Text, U16, Bytes;
    ghost var before := buf[..];
    ghost var cs := Source(t, r, a);
    var count := n % 0x1_0000;
    var id, number := Bytes(t.apps[a].apid), U16(n);
    ghost var body, text := CtxsBytes(r.option, r.ctid, cs, count), AppText(r.option, t.apps[a]);
    assert AppBytes(t, r, a) == id + number + body + text;
    hide AppBytes, AppHead;
    next := Put(buf, offset, id);
    next := PutMore(buf, before, offset, id, next, number);
    CopiedTwice(before, offset, id + number, body);
    next := PutCtxs(t, r, buf, next, a, offsetBase, k, count);
    if r.option == 7 {
      CopiedTwice(before, offset, id + number + body, text);
      next := PutText(buf, next, t.apps[a].description);
    } else {
      assert id + number + body + text == id + number + body;
    }
    AppLayout(t, r, a);
  }

  lemma {:induction false} AppsBytesGrow(t: Tables, r: Request, m: nat, n: nat)
    requires m <= n <= NumApps(t, r)
    ensures |AppsBytes(t, r, m)| <= |AppsBytes(t, r, n)|
  {
    hide AppBytes, NumApps, Index;
    if m < n {
      AppsBytesGrow(t, r, m, n - 1);
    }
  }

  /** The entry to report: the loop searches for the identifier even where it has just read it. */
  method AppAt(list: UserList, r: Request, numApps: nat, i: nat) returns (a: int)
    requires Indexed(list.View()) && AppsNamed(list.applications) && i < numApps == NumApps(list.View(), r)
    ensures a == Index(list.View(), r, i)
  {
    SortedView(list.View());
    hide Indexed;
    var apid := if r.apid != NO_ID then r.apid else list.applications[i].apid;
    a := list.FindApplication(apid);
    if r.apid == NO_ID {
      FoundApp(list.applications, apid, i);
    }
  }

  /** The entry to report, the offset of its contexts and their number. */
  method NextApp(list: UserList, r: Request, k: int, numApps: nat, numCtxs: int, i: nat) returns (a: nat, offsetBase: nat, n: nat)
    requires Indexed(list.View()) && AppsNamed(list.applications)
    requires i < numApps == NumApps(list.View(), r) && numCtxs == NumCtxs(list.View(), r)
    requires r.apid != NO_ID && r.ctid != NO_ID ==> k == Entry(FindCtx(list.contexts, r.apid, r.ctid), |list.contexts|)
    ensures a == Index(list.View(), r, i) && SourceAt(list.View(), r, a, offsetBase, k) && n == |Source(list.View(), r, a)|
  {
    hide Indexed, FindApp, FindCtx, NumApps, NumCtxs, AppsNamed, Entry, SourceAt, Source, Index, Offset;
    a := AppAt(list, r, numApps, i);
    IndexFound(list.View(), r, i);
    SourceFound(list.View(), r, a, k);
    offsetBase := list.OffsetOf(a);
    AnnouncedIs(list.View(), r, a);
    n := if r.apid != NO_ID then numCtxs else list.applications[a].count;
  }

  method PutNextApp(list: UserList, ghost t: Tables, r: Request, buf: array<Byte>, offset: nat, k: int, numApps: nat, numCtxs: int, i: nat)
    returns (next: nat)
    requires list.View() == t && Indexed(t) && AppsNamed(t.apps)
    requires i < numApps == NumApps(t, r) && numCtxs == NumCtxs(t, r)
    requires r.apid != NO_ID && r.ctid != NO_ID ==> k == Entry(FindCtx(t.ctxs, r.apid, r.ctid), |t.ctxs|)
    requires offset + |AppBytes(t, r, Index(t, r, i))| <= buf.Length
    modifies buf
    ensures var s := AppBytes(t, r, Index(t, r, i)); next == offset + |s| && buf[..] == Copied(old(buf[..]), offset, s)
  {
    hide Copied, Indexed, FindCtx, NumApps, NumCtxs, AppBytes, AppsNamed, Entry, SourceAt, Source, Index;
    var a, offsetBase, n := NextApp(list, r, k, numApps, numCtxs, i);
    next := PutApp(Tables(list.applications, list.contexts), r, buf, offset, a, offsetBase, k, n);
  }

  lemma {:induction false} AppsBytesStep(t: Tables, r: Request, i: nat, count: nat)
    requires i < count <= NumApps(t, r)
    ensures AppsBytes(t, r, i + 1) == AppsBytes(t, r, i) + AppBytes(t, r, Index(t, r, i))
    ensures |AppsBytes(t, r, i + 1)| <= |AppsBytes(t, r, count)|
    ensures AppsBytes(t, r, 0) == []
  {
    hide AppBytes, Index, NumApps;
    AppsBytesGrow(t, r, i + 1, count);
  }

  method PutApps(list: UserList, ghost t: Tables, r: Request, buf: array<Byte>, offset: nat, k: int, numApps: nat, numCtxs: int, count: nat)
    returns (next: nat)
    requires list.View() == t && Indexed(t) && AppsNamed(t.apps)
    requires numApps == NumApps(t, r) && numCtxs == NumCtxs(t, r) && 0 < count <= numApps
    requires r.apid != NO_ID && r.ctid != NO_ID ==> k == Entry(FindCtx(t.ctxs, r.apid, r.ctid), |t.ctxs|)
    requires offset + |AppsBytes(t, r, count)| <= buf.Length
    modifies buf
    ensures var s := AppsBytes(t, r, count); next == offset + |s| && buf[..] == Copied(old(buf[..]), offset, s)
  {
    hide *;
    ghost var before := buf[..];
    next := offset;
    CopiedNothing(before, offset);
    AppsBytesStep(t, r, 0, count);
    var i := 0;
    while i < count
      invariant 0 <= i <= count && next == offset + |AppsBytes(t, r, i)| <= buf.Length
      invariant buf[..] == Copied(before, offset, AppsBytes(t, r, i)) && list.View() == t
    {
      AppsBytesStep(t, r, i, count);
      CopiedTwice(before, offset, AppsBytes(t, r, i), AppBytes(t, r, Index(t, r, i)));
      next := PutNextApp(list, t, r, buf, next, k, numApps, numCtxs, i);
      i := i + 1;
    }
  }

  lemma {:induction false} IndexFound(t: Tables, r: Request, i: nat)
    requires i < NumApps(t, r)
    ensures r.apid != NO_ID ==> Index(t, r, i) == FindApp(t.apps, r.apid)
  {
  }

  /** The number of applications and everything for them, if there are any. */
  method PutBody(list: UserList, r: Request, buf: array<Byte>, offset: nat, k: int, numApps: nat, numCtxs: int) returns (next: nat)
    requires Indexed(list.View()) && AppsNamed(list.applications)
    requires numApps == NumApps(list.View(), r) && numCtxs == NumCtxs(list.View(), r)
    requires r.apid != NO_ID && r.ctid != NO_ID && numApps > 0 ==>
      k == Entry(FindCtx(list.contexts, r.apid, r.ctid), |list.contexts|)
    requires offset + |Body(list.View(), r)| <= buf.Length
    modifies buf
    ensures var s := Body(list.View(), r); next == offset + |s| && buf[..] == Copied(old(buf[..]), offset, s)
  {
    hide Copied, Indexed, FindApp, FindCtx, NumApps, NumCtxs, AppsNamed, Entry, AppsBytes, U16;
    ghost var before := buf[..];
    var count := numApps % 0x1_0000;
    next := offset;
    CopiedNothing(before, offset);
    if count != 0 {
      CopiedTwice(before, offset, U16(count), AppsBytes(list.View(), r, count));
      next := Put(buf, offset, U16(count));
      next := PutApps(list, list.View(), r, buf, next, k, numApps, numCtxs, count);
    }
  }

  /** Both passes: the reply, in a buffer of the size computed before, and zeros behind it. */
  method GetLogInfo(list: UserList, r: Request) returns (buf: array<Byte>)
    requires Indexed(list.View()) && AppsNamed(list.applications)
    ensures buf.Length == DataSize(list.View(), r) && fresh(buf)
    ensures |Reply(list.View(), r)| <= buf.Length && buf[..|Reply(list.View(), r)|] == Reply(list.View(), r)
    ensures buf[|Reply(list.View(), r)|..] == Zeros(buf.Length - |Reply(list.View(), r)|)
  {
    ghost var t := list.View();
    ReplyFits(t, r);
    hide Indexed, FindApp, FindCtx, AppsNamed, DataSize, NumApps, NumCtxs, Body, U32, Copied, S8;
    var a, k, numApps, numCtxs, size := SizeOf(list, r);
    Several(t, r);
    var value := if numApps != 0 && numCtxs != 0 then r.option else NO_MATCHING_CONTEXT;
    assert Reply(t, r) == U32(SERVICE_ID) + [S8(value)] + Body(t, r) + Remo();
    hide Reply, Entry;
    buf := new Byte[size](_ => 0);
    ghost var zeros := buf[..];
    assert zeros == Zeros(size);
    hide Zeros;
    var offset := Put(buf, 0, U32(SERVICE_ID));
    offset := PutMore(buf, zeros, 0, U32(SERVICE_ID), offset, [S8(value)]);
    CopiedTwice(zeros, 0, U32(SERVICE_ID) + [S8(value)], Body(t, r));
    offset := PutBody(list, r, buf, offset, k, numApps, numCtxs);
    offset := PutMore(buf, zeros, 0, U32(SERVICE_ID) + [S8(value)] + Body(t, r), offset, Remo());
    CopiedToFront(zeros, Reply(t, r));
    ZerosRest(size, |Reply(t, r)|);
  }

  function Zeros(n: nat): (s: seq<Byte>)
    ensures |s| == n
  {
    seq(n, _ => 0)
  }

  lemma {:induction false} ZerosRest(n: nat, m: nat)
    requires m <= n
    ensures Zeros(n)[m..] == Zeros(n - m)
  {
  }

  lemma {:induction false} Several(t: Tables, r: Request)
    ensures NumApps(t, r) > 0 && r.apid != NO_ID ==> Entry(FindApp(t.apps, r.apid), |t.apps|) >= 0
  {
  }

  lemma {:induction false} CopiedToFront(b: seq<Byte>, s: seq<Byte>)
    requires |s| <= |b|
    ensures Copied(b, 0, s)[..|s|] == s && Copied(b, 0, s)[|s|..] == b[|s|..]
  {
  }

  // ---- the parser of the library

  method ReadContext(status: int, b: seq<Byte>, pos: nat) returns (c: Parsed<CtxInfo>)
    ensures c == ParseCtx(status, b, pos)
  {
    hide ReadBytes, ReadSigned, ReadText;
    var id := ReadBytes(b, pos, 4);
    if id.Failed? {
      return Failed;
    }
    var at := id.pos;
    var level, traceStatus, description := 0, 0, [];
    if status == 4 || status == 6 || status == 7 {
      var x := ReadSigned(b, at);
      if x.Failed? {
        return Failed;
      }
      level, at := x.value, x.pos;
    }
    if status == 5 || status == 6 || status == 7 {
      var x := ReadSigned(b, at);
      if x.Failed? {
        return Failed;
      }
      traceStatus, at := x.value, x.pos;
    }
    if status == 7 {
      var x := ReadText(b, at);
      if x.Failed? {
        return Failed;
      }
      description, at := x.value, x.pos;
    }
    c := Got(CtxInfo(id.value, level, traceStatus, description), at);
  }

  /** What has been read, followed by what is still to be read. */
  function Onto<T>(done: seq<T>, rest: Parsed<seq<T>>): Parsed<seq<T>> {
    if rest.Failed? then Failed else Got(done + rest.value, rest.pos)
  }

  lemma {:induction false} CtxsOnto(status: int, b: seq<Byte>, done: seq<CtxInfo>, pos: nat, n: nat)
    requires n > 0
    ensures var c := ParseCtx(status, b, pos); var all := Onto(done, ParseCtxs(status, b, pos, n));
      all == if c.Failed? then Failed else Onto(done + [c.value], ParseCtxs(status, b, c.pos, n - 1))
  {
    hide ParseCtx;
    var c := ParseCtx(status, b, pos);
    if c.Got? {
      var rest := ParseCtxs(status, b, c.pos, n - 1);
      if rest.Got? {
        assert done + ([c.value] + rest.value) == (done + [c.value]) + rest.value;
      }
    }
  }

  lemma {:induction false} AppsOnto(status: int, b: seq<Byte>, done: seq<AppInfo>, pos: nat, n: nat)
    requires n > 0
    ensures var a := ParseApp(status, b, pos); var all := Onto(done, ParseApps(status, b, pos, n));
      all == if a.Failed? then Failed else Onto(done + [a.value], ParseApps(status, b, a.pos, n - 1))
  {
    hide ParseApp;
    var a := ParseApp(status, b, pos);
    if a.Got? {
      var rest := ParseApps(status, b, a.pos, n - 1);
      if rest.Got? {
        assert done + ([a.value] + rest.value) == (done + [a.value]) + rest.value;
      }
    }
  }

  lemma {:induction false} OntoNothing(status: int, b: seq<Byte>, pos: nat, n: nat)
    ensures Onto([], ParseCtxs(status, b, pos, n)) == ParseCtxs(status, b, pos, n)
    ensures Onto([], ParseApps(status, b, pos, n)) == ParseApps(status, b, pos, n)
  {
    hide ParseCtxs, ParseApps;
    var c := ParseCtxs(status, b, pos, n);
    var a := ParseApps(status, b, pos, n);
    assert c.Got? ==> [] + c.value == c.value;
    assert a.Got? ==> [] + a.value == a.value;
  }

  lemma {:induction false} OntoDone(status: int, b: seq<Byte>, pos: nat, cs: seq<CtxInfo>, infos: seq<AppInfo>)
    ensures Onto(cs, ParseCtxs(status, b, pos, 0)) == Got(cs, pos)
    ensures Onto(infos, ParseApps(status, b, pos, 0)) == Got(infos, pos)
  {
    assert cs + [] == cs && infos + [] == infos;
  }

  method ReadContexts(status: int, b: seq<Byte>, pos: nat, n: nat) returns (r: Parsed<seq<CtxInfo>>)
    ensures r == ParseCtxs(status, b, pos, n)
  {
    hide *;
    var done, at, j := [], pos, 0;
    OntoNothing(status, b, pos, n);
    while j < n
      invariant 0 <= j <= n
      invariant ParseCtxs(status, b, pos, n) == Onto(done, ParseCtxs(status, b, at, n - j))
    {
      CtxsOnto(status, b, done, at, n - j);
      var c := ReadContext(status, b, at);
      if c.Failed? {
        return Failed;
      }
      done, at, j := done + [c.value], c.pos, j + 1;
    }
    OntoDone(status, b, at, done, []);
    r := Got(done, at);
  }

  method ReadApplication(status: int, b: seq<Byte>, pos: nat) returns (a: Parsed<AppInfo>)
    ensures a == ParseApp(status, b, pos)
  {
    hide ReadBytes, ReadCount, ParseCtxs, ReadText;
    var id := ReadBytes(b, pos, 4);
    if id.Failed? {
      return Failed;
    }
    var n := ReadCount(b, id.pos);
    if n.Failed? {
      return Failed;
    }
    var cs := ReadContexts(status, b, n.pos, n.value);
    if cs.Failed? {
      return Failed;
    }
    var at, description := cs.pos, [];
    if status == 7 {
      var x := ReadText(b, at);
      if x.Failed? {
        return Failed;
      }
      description, at := x.value, x.pos;
    }
    a := Got(AppInfo(id.value, cs.value, description), at);
  }

  method ReadApplications(status: int, b: seq<Byte>, pos: nat, n: nat) returns (r: Parsed<seq<AppInfo>>)
    ensures r == ParseApps(status, b, pos, n)
  {
    hide *;
    var done, at, i := [], pos, 0;
    OntoNothing(status, b, pos, n);
    while i < n
      invariant 0 <= i <= n
      invariant ParseApps(status, b, pos, n) == Onto(done, ParseApps(status, b, at, n - i))
    {
      AppsOnto(status, b, done, at, n - i);
      var a := ReadApplication(status, b, at);
      if a.Failed? {
        return Failed;
      }
      done, at, i := done + [a.value], a.pos, i + 1;
    }
    OntoDone(status, b, at, [], done);
    r := Got(done, at);
  }

  method ReadReply(status: int, b: seq<Byte>) returns (r: Parsed<seq<AppInfo>>)
    ensures r == Parse(status, b)
  {
    hide ReadCount, ParseApps;
    if status < 3 || status > 7 {
      return Failed;
    }
    var n := ReadCount(b, 0);
    if n.Failed? {
      return Failed;
    }
    r := ReadApplications(status, b, n.pos, n.value);
  }

  /** What the library reads from the message of the daemon. */
  method Exchange(list: UserList, r: Request) returns (read: Parsed<seq<AppInfo>>)
    requires Indexed(list.View()) && AppsNamed(list.applications) && LevelsOk(list.contexts)
    requires Plain(r) && 3 <= r.option <= 7
    ensures var infos := Wanted(list.applications, list.contexts, r);
      read.Got? && read.value == infos <==> Found(infos) && Small(infos)
  {
    ReplyAtLeast(list.View(), r);
    hide *;
    var buf := GetLogInfo(list, r);
    ghost var n := |Reply(list.View(), r)|;
    assert buf[..] == buf[..n] + buf[n..];
    ReplyRoundTrip(list.View(), r, buf[n..]);
    assert buf[5..] == buf[..][5..];
    read := ReadReply(buf[4], buf[5..]);
    ViewIs(list);
    assert read.Got? ==> read == Got(read.value, read.pos);
  }

  lemma {:induction false} ReplyAtLeast(t: Tables, r: Request)
    ensures |Reply(t, r)| >= 9
  {
    hide Body;
  }

  lemma {:induction false} ViewIs(list: UserList)
    ensures list.View().apps == list.applications && list.View().ctxs == list.contexts
  {
  }
}

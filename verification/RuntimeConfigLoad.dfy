/** Loading what was saved. */
module RuntimeConfigLoad {
  import opened Ids
  import opened Sorting
  import opened Registry
  import opened RegistryIndex
  import opened LogstorageKeys
  import opened RuntimeConfig

  // ---- context lines

  predicate AllDigits(s: seq<Byte>) {
    forall j :: 0 <= j < |s| ==> 48 <= s[j] < 58
  }

  lemma {:induction false} OneMoreDigit(s: seq<Byte>, d: Byte, x: int)
    requires AllDigits(s) && 48 <= d < 58
    ensures Digits(s + [d], x) == 10 * Digits(s, x) + d as int - 48
  {
    if s == [] {
      assert ([] + [d])[1..] == [];
    } else {
      assert (s + [d])[1..] == s[1..] + [d];
      OneMoreDigit(s[1..], d, 10 * x + s[0] as int - 48);
    }
  }

  /** Digits are read back as the number they were written for. */
  lemma {:induction false} DigitsOfDec(x: int)
    requires x >= 0
    ensures Dec(x) != [] && AllDigits(Dec(x)) && Digits(Dec(x), 0) == x
  {
    if x < 10 {
      assert [48 + x][1..] == [];
    } else {
      DigitsOfDec(x / 10);
      OneMoreDigit(Dec(x / 10), 48 + x % 10, 0);
    }
  }

  /** Any number is read back as it was written. */
  lemma {:induction false} DecRead(x: int, before: int)
    requires -128 <= x < 128
    ensures ScanInt(Dec(x), before) == x && Int8(x) == x
    ensures Dec(x) != [] && forall j :: 0 <= j < |Dec(x)| ==> Dec(x)[j] != COLON && Dec(x)[j] != NEWLINE && Dec(x)[j] != 0
  {
    if x < 0 {
      DigitsOfDec(-x);
      assert Dec(x) == [45] + Dec(-x);
      assert Dec(x)[1..] == Dec(-x);
    } else {
      DigitsOfDec(x);
    }
  }

  /** The five fields of a line, each followed by a colon. */
  function Fields(a: seq<Byte>, c: seq<Byte>, l: seq<Byte>, s: seq<Byte>, d: seq<Byte>): seq<Byte> {
    a + [COLON] + c + [COLON] + l + [COLON] + s + [COLON] + d + [COLON, NEWLINE]
  }

  predicate NoColon(s: seq<Byte>) {
    forall j :: 0 <= j < |s| ==> s[j] != COLON
  }

  lemma {:induction false} FieldAt(pre: seq<Byte>, t: seq<Byte>, post: seq<Byte>)
    requires t != [] && NoColon(t)
    ensures StrTok(pre + t + [COLON] + post, |pre|) == Token(t, |pre| + |t| + 1)
  {
    var s := pre + t + [COLON] + post;
    assert s[|pre|..|pre| + |t|] == t;
    TokenBefore(s, |pre|, t);
  }

  lemma {:induction false} LastFieldAt(pre: seq<Byte>, d: seq<Byte>)
    requires NoColon(d)
    ensures var s := pre + d + [COLON, NEWLINE]; StrTok(s, |pre|).Token? && StrTok(s, |pre|).text == Restored(d)
  {
    var s := pre + d + [COLON, NEWLINE];
    assert s[|pre|..] == d + [COLON, NEWLINE];
    LastToken(s, |pre|, d);
  }

  predicate Tokens(line: seq<Byte>, a: seq<Byte>, c: seq<Byte>, l: seq<Byte>, s: seq<Byte>, d: seq<Byte>) {
    var p := |a| + 1; var q := p + |c| + 1; var r := q + |l| + 1; var u := r + |s| + 1;
    && u <= |line|
    && StrTok(line, 0) == Token(a, p) && StrTok(line, p) == Token(c, q) && StrTok(line, q) == Token(l, r)
    && StrTok(line, r) == Token(s, u) && StrTok(line, u).Token? && StrTok(line, u).text == d
  }

  lemma {:induction false} FieldTokens(a: seq<Byte>, c: seq<Byte>, l: seq<Byte>, s: seq<Byte>, d: seq<Byte>)
    requires a != [] && c != [] && l != [] && s != [] && NoColon(a) && NoColon(c) && NoColon(l) && NoColon(s) && NoColon(d)
    ensures Tokens(Fields(a, c, l, s, d), a, c, l, s, Restored(d))
  {
    var line := Fields(a, c, l, s, d);
    hide StrTok, NoColon;
    var e := d + [COLON, NEWLINE];
    var p, q, r, u := a + [COLON], a + [COLON] + c + [COLON], a + [COLON] + c + [COLON] + l + [COLON], a + [COLON] + c + [COLON] + l + [COLON] + s + [COLON];
    assert line == [] + a + [COLON] + (c + [COLON] + l + [COLON] + s + [COLON] + e);
    FieldAt([], a, c + [COLON] + l + [COLON] + s + [COLON] + e);
    assert line == p + c + [COLON] + (l + [COLON] + s + [COLON] + e);
    FieldAt(p, c, l + [COLON] + s + [COLON] + e);
    assert line == q + l + [COLON] + (s + [COLON] + e);
    FieldAt(q, l, s + [COLON] + e);
    assert line == r + s + [COLON] + e;
    FieldAt(r, s, e);
    assert line == u + d + [COLON, NEWLINE];
    LastFieldAt(u, d);
  }

  lemma {:induction false} PlainNoColon(s: seq<Byte>)
    requires PlainText(s)
    ensures NoColon(s)
  {
  }

  lemma {:induction false} CtxLineIsFields(c: Context)
    ensures CtxLine(c) == Fields(Str(c.apid), Str(c.ctid), Dec(c.level), Dec(c.status), c.description)
  {
    hide Str, Dec;
  }

  lemma {:induction false} TokensLoaded(x: Loading, loaded: bool, line: seq<Byte>, a: seq<Byte>, c: seq<Byte>, l: seq<Byte>, s: seq<Byte>, d: seq<Byte>)
    requires Tokens(line, a, c, l, s, d)
    ensures LoadCtxLine(x, loaded, line)
         == AddLoaded(x.t, loaded, SetId(a), SetId(c), ScanInt(l, x.level), ScanInt(s, x.status), d)
  {
    hide StrTok, AddLoaded, ScanInt, SetId;
  }

  /** A context line registers the context again, with its level, status and description. */
  lemma {:induction false} CtxLineLoaded(x: Loading, loaded: bool, c: Context)
    requires CtxPlain(c)
    ensures LoadCtxLine(x, loaded, CtxLine(c)) == AddLoaded(x.t, loaded, c.apid, c.ctid, c.level, c.status, Restored(c.description))
  {
    var a, k, l, s := Str(c.apid), Str(c.ctid), Dec(c.level), Dec(c.status);
    SetIdOfStr(c.apid);
    SetIdOfStr(c.ctid);
    DecRead(c.level, x.level);
    DecRead(c.status, x.status);
    PlainNoColon(a);
    PlainNoColon(k);
    PlainNoColon(c.description);
    assert NoColon(l) && NoColon(s);
    assert c.apid != NO_ID && c.ctid != NO_ID;
    hide *;
    CtxLineIsFields(c);
    FieldTokens(a, k, l, s, c.description);
    TokensLoaded(x, loaded, CtxLine(c), a, k, l, s, Restored(c.description));
  }

  /** What a saved line holds, field by field: application, context, log level, trace status, description. The
      numbers are found again whatever the variables held before. */
  lemma {:induction false} SavedFields(c: Context, x: int, y: int) returns (l: seq<Byte>, s: seq<Byte>)
    requires CtxPlain(c)
    ensures CtxLine(c) == Str(c.apid) + [58] + Str(c.ctid) + [58] + l + [58] + s + [58] + c.description + [58, 10]
    ensures ScanInt(l, x) == c.level && ScanInt(s, y) == c.status
    ensures Tokens(CtxLine(c), Str(c.apid), Str(c.ctid), l, s, if c.description == [] then [10] else c.description)
  {
    l, s := Dec(c.level), Dec(c.status);
    SetIdOfStr(c.apid);
    SetIdOfStr(c.ctid);
    DecRead(c.level, x);
    DecRead(c.status, y);
    PlainNoColon(Str(c.apid));
    PlainNoColon(Str(c.ctid));
    PlainNoColon(c.description);
    assert NoColon(l) && NoColon(s);
    CtxLineIsFields(c);
    FieldTokens(Str(c.apid), Str(c.ctid), l, s, c.description);
    hide Str, Dec, ScanInt, Tokens, NoColon, CtxLine;
  }

  /** Numbers as they are written. */
  lemma {:induction false} DecTexts()
    ensures Dec(-1) == [45, 49] && Dec(0) == [48] && Dec(6) == [54] && Dec(-128) == [45, 49, 50, 56]
  {
    assert Dec(12) == [49] + [50] && Dec(128) == [49, 50] + [56];
  }

  /** A number in a line loses all but its lowest eight bits, which count as a signed byte. */
  lemma {:induction false} Int8Wraps(x: int)
    ensures -128 <= Int8(x) < 128 && (x - Int8(x)) % 256 == 0
    ensures Int8(260) == 4 && Int8(200) == -56
  {
  }

  /** A line that does not end within 254 characters is read in two parts. */
  lemma {:induction false} LongLineSplit(file: seq<Byte>, pos: nat)
    requires pos + 254 <= |file| && forall j :: pos <= j < pos + 254 ==> file[j] != 10
    ensures LineEnd(file, pos, LINE_MAX) == pos + 254
  {
    NoNewline(file, pos, 254);
  }

  lemma {:induction false} NoNewline(file: seq<Byte>, pos: nat, n: nat)
    requires pos + n <= |file| && forall j :: pos <= j < pos + n ==> file[j] != 10
    ensures LineEnd(file, pos, n) == pos + n
    decreases n
  {
    if n > 0 {
      NoNewline(file, pos + 1, n - 1);
    }
  }

  /** A character of the fields is a colon, or one of a field. */
  lemma {:induction false} FieldsAreLine(a: seq<Byte>, c: seq<Byte>, l: seq<Byte>, s: seq<Byte>, d: seq<Byte>)
    requires PlainText(a) && PlainText(c) && PlainText(l) && PlainText(s) && PlainText(d) && |Fields(a, c, l, s, d)| <= LINE_MAX
    ensures IsLine(Fields(a, c, l, s, d))
  {
    var front := a + [COLON] + c + [COLON] + l + [COLON] + s + [COLON] + d + [COLON];
    assert Fields(a, c, l, s, d) == front + [NEWLINE];
    Joined(a, c);
    Joined(a + [COLON] + c, l);
    Joined(a + [COLON] + c + [COLON] + l, s);
    Joined(a + [COLON] + c + [COLON] + l + [COLON] + s, d);
    hide Fields;
    var all := a + [COLON] + c + [COLON] + l + [COLON] + s + [COLON] + d;
    assert OneLine(all);
    assert front == all + [COLON];
  }

  predicate OneLine(s: seq<Byte>) {
    forall j :: 0 <= j < |s| ==> s[j] != 0 && s[j] != NEWLINE
  }

  lemma {:induction false} Joined(s: seq<Byte>, t: seq<Byte>)
    requires OneLine(s) && PlainText(t)
    ensures OneLine(s + [COLON] + t)
  {
  }

  lemma {:induction false} CtxLineIsLine(c: Context)
    requires CtxPlain(c)
    ensures IsLine(CtxLine(c))
  {
    CtxLineIsFields(c);
    DecRead(c.level, 0);
    DecRead(c.status, 0);
    assert PlainText(Dec(c.level)) && PlainText(Dec(c.status));
    hide Fields, CtxLine, Str, Dec, IsLine, PlainText;
    FieldsAreLine(Str(c.apid), Str(c.ctid), Dec(c.level), Dec(c.status), c.description);
  }

  // ---- files

  predicate AppsPlain(apps: seq<Application>) {
    forall i :: 0 <= i < |apps| ==> AppPlain(apps[i])
  }

  predicate CtxsPlain(ctxs: seq<Context>) {
    forall k :: 0 <= k < |ctxs| ==> CtxPlain(ctxs[k])
  }

  /** The applications registered one after the other, as from lines. */
  function AddApps(t: Tables, apps: seq<Application>): Tables
    decreases |apps|
  {
    if apps == [] then t
    else AddApps(AddApp(t, apps[0].apid, 0, Restored(apps[0].description), FD_INIT, false), apps[1..])
  }

  lemma {:induction false} AppsFileLoaded(t: Tables, pre: seq<Byte>, apps: seq<Application>)
    requires AppsPlain(apps)
    ensures LoadApps(t, pre + SaveApps(apps), |pre|) == AddApps(t, apps)
    decreases |apps|
  {
    var file := pre + SaveApps(apps);
    if apps != [] {
      var line, rest := AppLine(apps[0]), SaveApps(apps[1..]);
      assert AppPlain(apps[0]);
      hide AppLine, LoadAppLine, LineEnd, Line, IsLine, AddApp, Restored, AppPlain;
      assert file == pre + line + rest == (pre + line) + rest;
      AppLineIsLine(apps[0]);
      LineRead(pre, line, rest);
      AppLineLoaded(t, apps[0]);
      AppsFileLoaded(LoadAppLine(t, line), pre + line, apps[1..]);
      LineNotEmpty(line);
    }
  }

  lemma {:induction false} LineNotEmpty(line: seq<Byte>)
    requires IsLine(line)
    ensures |line| > 0
  {
  }

  function AddCtxs(x: Loading, loaded: bool, ctxs: seq<Context>): Loading
    decreases |ctxs|
  {
    if ctxs == [] || !x.ok then x
    else
      var c := ctxs[0];
      AddCtxs(AddLoaded(x.t, loaded, c.apid, c.ctid, c.level, c.status, Restored(c.description)), loaded, ctxs[1..])
  }

  lemma {:induction false} CtxsFileLoaded(x: Loading, loaded: bool, pre: seq<Byte>, ctxs: seq<Context>)
    requires CtxsPlain(ctxs)
    ensures LoadCtxs(x, loaded, pre + SaveCtxs(ctxs), |pre|) == AddCtxs(x, loaded, ctxs)
    decreases |ctxs|
  {
    var file := pre + SaveCtxs(ctxs);
    if ctxs != [] {
      var line, rest := CtxLine(ctxs[0]), SaveCtxs(ctxs[1..]);
      assert CtxPlain(ctxs[0]);
      hide CtxLine, LoadCtxLine, LineEnd, Line, IsLine, AddLoaded, Restored, CtxPlain;
      assert file == pre + line + rest == (pre + line) + rest;
      CtxLineIsLine(ctxs[0]);
      LineRead(pre, line, rest);
      CtxLineLoaded(x, loaded, ctxs[0]);
      LineNotEmpty(line);
      if x.ok {
        CtxsFileLoaded(LoadCtxLine(x, loaded, line), loaded, pre + line, ctxs[1..]);
      }
    }
  }

  // ---- applications in order

  /** What is left of an application: no process, no connection, and the contexts loaded so far. */
  function LoadedApp(a: Application, count: int): Application {
    Application(a.apid, 0, FD_INIT, false, Restored(a.description), count)
  }

  function LoadedApps(apps: seq<Application>, ctxs: seq<Context>): (r: seq<Application>)
    ensures |r| == |apps| && forall i :: 0 <= i < |apps| ==> r[i] == LoadedApp(apps[i], CountOf(ctxs, apps[i].apid))
  {
    seq(|apps|, i requires 0 <= i < |apps| => LoadedApp(apps[i], CountOf(ctxs, apps[i].apid)))
  }

  lemma {:induction false} PlaceAtEnd<T>(s: seq<T>, key: T -> int, k: int)
    requires forall i :: 0 <= i < |s| ==> key(s[i]) < k
    ensures Place(s, key, k) == |s|
  {
  }

  lemma {:induction false} AppendedInOrder(apps: seq<Application>, n: nat)
    requires SortedApps(apps) && n < |apps| && apps[n].apid != NO_ID
    ensures var a := apps[n];
      AddApp(Tables(LoadedApps(apps[..n], []), []), a.apid, 0, Restored(a.description), FD_INIT, false)
      == Tables(LoadedApps(apps[..n + 1], []), [])
  {
    var a := apps[n];
    var t := Tables(LoadedApps(apps[..n], []), []);
    forall i | 0 <= i < n ensures AppKey(t.apps[i]) < AppKey(a) && t.apps[i].apid != a.apid {
      assert AppKey(apps[i]) < AppKey(apps[n]);
    }
    NotFound(t.apps, a.apid);
    var s := AppendedApp(t, a.apid);
    var u := Attach(s, n, 0, Restored(a.description), FD_INIT, false);
    AttachesText(s, n, Restored(a.description));
    assert u.apps[..n] == t.apps && u.apps[n] == LoadedApp(a, 0);
    PlaceAtEnd(t.apps, AppKey, AppKey(u.apps[n]));
    hide Attach, FindApp, Place, Restored;
    assert SortedIn(u).apps == t.apps + [LoadedApp(a, 0)];
    assert LoadedApps(apps[..n + 1], []) == t.apps + [LoadedApp(a, 0)];
  }

  lemma {:induction false} NotFound(apps: seq<Application>, apid: Id)
    requires forall i :: 0 <= i < |apps| ==> apps[i].apid != apid
    ensures FindApp(apps, apid) == |apps|
  {
  }

  /** Without a process, registering just stores the description. */
  lemma {:induction false} AttachesText(t: Tables, i: nat, description: seq<Byte>)
    requires i < |t.apps| && t.apps[i].pid == 0
    ensures Attach(t, i, 0, description, FD_INIT, false) == t.(apps := t.apps[i := t.apps[i].(description := description)])
  {
  }

  lemma {:induction false} AppsRestored(apps: seq<Application>, n: nat)
    requires SortedApps(apps) && n <= |apps| && AppsPlain(apps)
    ensures AddApps(Tables(LoadedApps(apps[..n], []), []), apps[n..]) == Tables(LoadedApps(apps, []), [])
    decreases |apps| - n
  {
    if n == |apps| {
      assert apps[..n] == apps;
    } else {
      assert AppPlain(apps[n]);
      assert apps[n..][1..] == apps[n + 1..] && apps[n..][0] == apps[n];
      hide SortedApps, AddApp, LoadedApps, AppPlain, Restored;
      AppendedNamed(apps, n);
      AppsRestored(apps, n + 1);
    }
  }

  lemma {:induction false} AppendedNamed(apps: seq<Application>, n: nat)
    requires SortedApps(apps) && n < |apps| && AppPlain(apps[n])
    ensures var a := apps[n];
      AddApp(Tables(LoadedApps(apps[..n], []), []), a.apid, 0, Restored(a.description), FD_INIT, false)
      == Tables(LoadedApps(apps[..n + 1], []), [])
  {
    assert apps[n].apid != NO_ID;
    hide *;
    AppendedInOrder(apps, n);
  }

  // ---- contexts in order

  function LoadedCtx(c: Context): Context {
    Context(c.apid, c.ctid, c.level, c.status, 0, 0, Restored(c.description), 0, true)
  }

  function LoadedCtxs(ctxs: seq<Context>): (r: seq<Context>)
    ensures |r| == |ctxs| && forall k :: 0 <= k < |ctxs| ==> r[k] == LoadedCtx(ctxs[k])
  {
    seq(|ctxs|, k requires 0 <= k < |ctxs| => LoadedCtx(ctxs[k]))
  }

  /** The registry after the first n contexts were loaded. */
  function LoadedTo(t: Tables, n: nat): Tables
    requires n <= |t.ctxs|
  {
    Tables(LoadedApps(t.apps, t.ctxs[..n]), LoadedCtxs(t.ctxs[..n]))
  }

  lemma {:induction false} CountNext(ctxs: seq<Context>, n: nat, apid: Id)
    requires n < |ctxs|
    ensures CountOf(ctxs[..n + 1], apid) == CountOf(ctxs[..n], apid) + (if ctxs[n].apid == apid then 1 else 0)
  {
    assert ctxs[..n + 1] == ctxs[..n] + [ctxs[n]];
    CountSplit(ctxs[..n], [ctxs[n]], apid);
    assert CountOf([ctxs[n]][1..], apid) == 0;
  }

  lemma {:induction false} BumpedIsNext(t: Tables, n: nat, a: nat)
    requires SortedApps(t.apps) && n < |t.ctxs| && a < |t.apps| && t.apps[a].apid == t.ctxs[n].apid
    ensures Bumped(LoadedApps(t.apps, t.ctxs[..n]), a, 1) == LoadedApps(t.apps, t.ctxs[..n + 1])
  {
    hide CountOf, Restored;
    var r := LoadedApps(t.apps, t.ctxs[..n + 1]);
    var u := Bumped(LoadedApps(t.apps, t.ctxs[..n]), a, 1);
    forall i | 0 <= i < |t.apps| ensures u[i] == r[i] {
      CountNext(t.ctxs, n, t.apps[i].apid);
      if i != a {
        BumpedKeeps(t.apps, a, 1);
      }
    }
  }

  lemma {:induction false} CtxNotFound(ctxs: seq<Context>, apid: Id, ctid: Id)
    requires forall k :: 0 <= k < |ctxs| ==> ctxs[k].apid != apid || ctxs[k].ctid != ctid
    ensures FindCtx(ctxs, apid, ctid) == |ctxs|
  {
  }

  lemma {:induction false} LoadedFind(apps: seq<Application>, ctxs: seq<Context>, apid: Id)
    ensures FindApp(LoadedApps(apps, ctxs), apid) == FindApp(apps, apid)
  {
    var r := LoadedApps(apps, ctxs);
    assert forall i :: 0 <= i < |apps| ==> r[i].apid == apps[i].apid;
  }

  /** The next context in order is put at the end. */
  lemma {:induction false} InsertedInOrder(ctxs: seq<Context>, n: nat)
    requires SortedCtxs(ctxs) && n < |ctxs|
    ensures Insert(LoadedCtxs(ctxs[..n]), CtxKey, LoadedCtx(ctxs[n])) == LoadedCtxs(ctxs[..n + 1])
    ensures FindCtx(LoadedCtxs(ctxs[..n]), ctxs[n].apid, ctxs[n].ctid) == n
  {
    var r := LoadedCtxs(ctxs[..n]);
    forall k | 0 <= k < n
      ensures CtxKey(r[k]) < CtxKey(LoadedCtx(ctxs[n]))
      ensures r[k].apid != ctxs[n].apid || r[k].ctid != ctxs[n].ctid
    {
      assert CtxKey(ctxs[k]) < CtxKey(ctxs[n]);
    }
    PlaceAtEnd(r, CtxKey, CtxKey(LoadedCtx(ctxs[n])));
    CtxNotFound(r, ctxs[n].apid, ctxs[n].ctid);
    hide CtxKey, Restored, FindCtx, Place;
    assert LoadedCtxs(ctxs[..n + 1]) == r + [LoadedCtx(ctxs[n])];
  }

  lemma {:induction false} ContextLoaded(t: Tables, loaded: bool, n: nat)
    requires Indexed(t) && n < |t.ctxs| && CtxPlain(t.ctxs[n])
    ensures var c := t.ctxs[n];
      AddLoaded(LoadedTo(t, n), loaded, c.apid, c.ctid, c.level, c.status, Restored(c.description))
      == if LevelOk(c.level, c.status) then Loading(LoadedTo(t, n + 1), c.level, c.status, true)
         else Loading(LoadedTo(t, n), c.level, c.status, false)
  {
    var c := t.ctxs[n];
    var a := FindApp(t.apps, c.apid);
    FindAppIsMember(t.apps, c.apid);
    DecRead(c.level, 0);
    DecRead(c.status, 0);
    LoadedFind(t.apps, t.ctxs[..n], c.apid);
    InsertedInOrder(t.ctxs, n);
    BumpedIsNext(t, n, a);
    hide Indexed, FindApp, FindCtx, Insert, Bumped, LoadedApps, LoadedCtxs, PlainText, Str, CtxLine, Dec, ScanInt, Restored, Int8;
    assert Fill(NewContext(c.apid, c.ctid), true, loaded, c.level, c.status, 0, 0, Restored(c.description)) == LoadedCtx(c);
  }

  /** How many contexts stand before the first one whose level or status is out of range, from n on. */
  function FirstBad(ctxs: seq<Context>, n: nat): (m: nat)
    requires n <= |ctxs|
    ensures n <= m <= |ctxs|
    ensures forall k :: n <= k < m ==> -1 <= ctxs[k].level <= 6 && -1 <= ctxs[k].status <= 1
    ensures m < |ctxs| ==> !(-1 <= ctxs[m].level <= 6 && -1 <= ctxs[m].status <= 1)
    decreases |ctxs| - n
  {
    if n == |ctxs| || !LevelOk(ctxs[n].level, ctxs[n].status) then n else FirstBad(ctxs, n + 1)
  }

  /** Contexts are restored in order up to the first one that is out of range, at which loading ends. */
  lemma {:induction false} CtxsRestored(t: Tables, loaded: bool, x: Loading, n: nat)
    requires Indexed(t) && n <= |t.ctxs| && CtxsPlain(t.ctxs) && x.ok && x.t == LoadedTo(t, n)
    ensures var y := AddCtxs(x, loaded, t.ctxs[n..]); var m := FirstBad(t.ctxs, n);
      y.t == LoadedTo(t, m) && (y.ok <==> m == |t.ctxs|)
    decreases |t.ctxs| - n
  {
    if n < |t.ctxs| {
      assert t.ctxs[n..][1..] == t.ctxs[n + 1..] && t.ctxs[n..][0] == t.ctxs[n];
      hide Indexed, AddLoaded, LoadedTo, CtxPlain, Restored;
      ContextLoaded(t, loaded, n);
      if LevelOk(t.ctxs[n].level, t.ctxs[n].status) {
        CtxsRestored(t, loaded, Loading(LoadedTo(t, n + 1), t.ctxs[n].level, t.ctxs[n].status, true), n + 1);
      }
    }
  }

  // ---- the round trip

  /** The registry without processes and connections. */
  function Kept(t: Tables): (u: Tables)
    ensures |u.apps| == |t.apps| && |u.ctxs| == |t.ctxs|
    ensures forall i :: 0 <= i < |t.apps| ==>
      u.apps[i] == t.apps[i].(pid := 0, handle := FD_INIT, owns := false)
    ensures forall k :: 0 <= k < |t.ctxs| ==>
      u.ctxs[k] == t.ctxs[k].(pos := 0, handle := 0, storage := 0, predefined := true)
  {
    Tables(seq(|t.apps|, i requires 0 <= i < |t.apps| => t.apps[i].(pid := 0, handle := FD_INIT, owns := false)),
           seq(|t.ctxs|, k requires 0 <= k < |t.ctxs| => t.ctxs[k].(pos := 0, handle := 0, storage := 0, predefined := true)))
  }

  /** Load both files into an empty registry. */
  function LoadBoth(appsFile: seq<Byte>, ctxsFile: seq<Byte>, loaded: bool, level: int, status: int): Loading {
    LoadCtxs(Loading(LoadApps(Tables([], []), appsFile, 0), level, status, true), loaded, ctxsFile, 0)
  }

  /** All applications come back, and the contexts up to the first one with a level or status out of range;
      that one and all behind it are lost, and loading fails. */
  lemma {:induction false} LoadsSaved(t: Tables, loaded: bool, level: int, status: int)
    requires Indexed(t) && AppsPlain(t.apps) && CtxsPlain(t.ctxs)
    ensures var x := LoadBoth(SaveApps(t.apps), SaveCtxs(t.ctxs), loaded, level, status);
      var m := FirstBad(t.ctxs, 0);
      x.t == LoadedTo(t, m) && (x.ok <==> m == |t.ctxs|)
  {
    var none: seq<Byte> := [];
    AppsFileLoaded(Tables([], []), none, t.apps);
    assert none + SaveApps(t.apps) == SaveApps(t.apps) && none + SaveCtxs(t.ctxs) == SaveCtxs(t.ctxs);
    assert LoadedApps(t.apps[..0], []) == [] && t.apps[0..] == t.apps;
    AppsRestored(t.apps, 0);
    var u := LoadApps(Tables([], []), SaveApps(t.apps), 0);
    assert u == LoadedTo(t, 0);
    var x := Loading(u, level, status, true);
    CtxsFileLoaded(x, loaded, none, t.ctxs);
    assert t.ctxs[0..] == t.ctxs;
    hide *;
    CtxsRestored(t, loaded, x, 0);
    LoadBothIs(SaveApps(t.apps), SaveCtxs(t.ctxs), loaded, level, status);
  }

  lemma {:induction false} LoadBothIs(appsFile: seq<Byte>, ctxsFile: seq<Byte>, loaded: bool, level: int, status: int)
    ensures LoadBoth(appsFile, ctxsFile, loaded, level, status)
         == LoadCtxs(Loading(LoadApps(Tables([], []), appsFile, 0), level, status, true), loaded, ctxsFile, 0)
  {
  }

  predicate Described(t: Tables) {
    (forall i :: 0 <= i < |t.apps| ==> t.apps[i].description != []) && forall k :: 0 <= k < |t.ctxs| ==> t.ctxs[k].description != []
  }

  predicate LevelsFit(t: Tables) {
    forall k :: 0 <= k < |t.ctxs| ==> -1 <= t.ctxs[k].level <= 6 && -1 <= t.ctxs[k].status <= 1
  }

  /** For registries of any size: loading what was saved restores every application with its description and
      every context with its level, status and description, if and only if no description is empty and every
      level and status is in the range that registering a context accepts. */
  lemma {:induction false} SaveLoad(t: Tables, loaded: bool, level: int, status: int)
    requires Indexed(t) && AppsPlain(t.apps) && CtxsPlain(t.ctxs)
    ensures var x := LoadBoth(SaveApps(t.apps), SaveCtxs(t.ctxs), loaded, level, status);
      x.ok && x.t == Kept(t) <==> Described(t) && LevelsFit(t)
  {
    LoadsSaved(t, loaded, level, status);
    var m := FirstBad(t.ctxs, 0);
    if m == |t.ctxs| {
      FullyLoaded(t);
    }
    hide LoadBoth, Indexed, Kept, Described, LoadedTo, AppsPlain, CtxsPlain;
  }

  lemma {:induction false} FullyLoaded(t: Tables)
    requires Indexed(t)
    ensures LoadedTo(t, |t.ctxs|) == Kept(t) <==> Described(t)
  {
    var u := LoadedTo(t, |t.ctxs|);
    assert t.ctxs[..|t.ctxs|] == t.ctxs;
    forall i | 0 <= i < |t.apps| ensures u.apps[i] == Kept(t).apps[i] <==> t.apps[i].description != [] {
      assert t.apps[i].count == CountOf(t.ctxs, t.apps[i].apid);
    }
    hide Indexed, CountOf;
    forall k | 0 <= k < |t.ctxs| ensures u.ctxs[k] == Kept(t).ctxs[k] <==> t.ctxs[k].description != [] {
    }
    KeptIff(u, Kept(t), t);
  }

  lemma {:induction false} KeptIff(u: Tables, v: Tables, t: Tables)
    requires |u.apps| == |v.apps| == |t.apps| && |u.ctxs| == |v.ctxs| == |t.ctxs|
    requires forall i :: 0 <= i < |t.apps| ==> (u.apps[i] == v.apps[i] <==> t.apps[i].description != [])
    requires forall k :: 0 <= k < |t.ctxs| ==> (u.ctxs[k] == v.ctxs[k] <==> t.ctxs[k].description != [])
    ensures u == v <==> Described(t)
  {
    if Described(t) {
      assert u.apps == v.apps && u.ctxs == v.ctxs;
    }
  }
}

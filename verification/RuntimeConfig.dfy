/** The text files in which applications and contexts are kept between runs. */
module RuntimeConfig {
  import opened Ids
  import opened Registry
  import opened LogstorageKeys

  const NEWLINE: Byte := 10

  /** What fits a line buffer besides its terminator. */
  const LINE_MAX := 254

  // ---- writing

  /** An integer as printf writes it. */
  function Dec(x: int): seq<Byte>
    decreases if x < 0 then 1 - x else x
  {
    if x < 0 then [45] + Dec(-x)
    else if x < 10 then [48 + x]
    else Dec(x / 10) + [48 + x % 10]
  }

  function AppLine(a: Application): seq<Byte> {
    Str(a.apid) + [COLON] + a.description + [COLON, NEWLINE]
  }

  function CtxLine(c: Context): seq<Byte> {
    Str(c.apid) + [COLON] + Str(c.ctid) + [COLON] + Dec(c.level) + [COLON] + Dec(c.status) + [COLON]
    + c.description + [COLON, NEWLINE]
  }

  function SaveApps(apps: seq<Application>): seq<Byte> {
    if apps == [] then [] else AppLine(apps[0]) + SaveApps(apps[1..])
  }

  function SaveCtxs(ctxs: seq<Context>): seq<Byte> {
    if ctxs == [] then [] else CtxLine(ctxs[0]) + SaveCtxs(ctxs[1..])
  }

  // ---- reading

  /** Where a line ends: behind a newline, after n characters, or at the end of the file. */
  function LineEnd(s: seq<Byte>, pos: nat, n: nat): (e: nat)
    requires pos <= |s|
    ensures pos <= e <= |s| && (n > 0 && pos < |s| ==> pos < e)
    decreases n
  {
    if n == 0 || pos == |s| then pos else if s[pos] == NEWLINE then pos + 1 else LineEnd(s, pos + 1, n - 1)
  }

  /** What a C function sees of a buffer. */
  function CText(s: seq<Byte>): seq<Byte> {
    if s == [] || s[0] == 0 then [] else [s[0]] + CText(s[1..])
  }

  function Line(file: seq<Byte>, pos: nat): seq<Byte>
    requires pos <= |file|
  {
    CText(file[pos..LineEnd(file, pos, LINE_MAX)])
  }

  function LoadAppLine(t: Tables, line: seq<Byte>): Tables {
    var a := StrTok(line, 0);
    if a.NoToken? then t
    else
      var d := StrTok(line, a.next);
      if d.NoToken? then t else AddApp(t, SetId(a.text), 0, d.text, FD_INIT, false)
  }

  function LoadApps(t: Tables, file: seq<Byte>, pos: nat): Tables
    requires pos <= |file|
    decreases |file| - pos
  {
    if pos == |file| then t
    else LoadApps(LoadAppLine(t, Line(file, pos)), file, LineEnd(file, pos, LINE_MAX))
  }

  /** The leading digits of a text as a number, continuing x. */
  function Digits(s: seq<Byte>, x: int): int {
    if s == [] || !(48 <= s[0] < 58) then x else Digits(s[1..], 10 * x + s[0] as int - 48)
  }

  predicate IsSpace(c: Byte) {
    c == 32 || 9 <= c <= 13
  }

  /** sscanf with "%d": leading space, a sign, digits; without digits the variable keeps its value. */
  function ScanInt(s: seq<Byte>, before: int): int {
    if s == [] then before
    else if IsSpace(s[0]) then ScanInt(s[1..], before)
    else if 48 <= s[0] < 58 then Digits(s, 0)
    else if (s[0] == 45 || s[0] == 43) && |s| > 1 && 48 <= s[1] < 58 then
      (if s[0] == 45 then -Digits(s[1..], 0) else Digits(s[1..], 0))
    else before
  }

  /** A value stored to a signed byte. */
  function Int8(x: int): int {
    (x + 128) % 256 - 128
  }

  /** The tables, the two number variables of the loop, and whether it goes on. */
  datatype Loading = Loading(t: Tables, level: int, status: int, ok: bool)

  function LoadCtxLine(x: Loading, loaded: bool, line: seq<Byte>): Loading {
    var a := StrTok(line, 0);
    if a.NoToken? then x else
    var c := StrTok(line, a.next);
    if c.NoToken? then x else
    var l := StrTok(line, c.next);
    if l.NoToken? then x else
    var level := ScanInt(l.text, x.level);
    var s := StrTok(line, l.next);
    if s.NoToken? then x.(level := level) else
    var status := ScanInt(s.text, x.status);
    var d := StrTok(line, s.next);
    if d.NoToken? then x.(level := level, status := status)
    else AddLoaded(x.t, loaded, SetId(a.text), SetId(c.text), level, status, d.text)
  }

  function AddLoaded(t: Tables, loaded: bool, apid: Id, ctid: Id, level: int, status: int, description: seq<Byte>): Loading {
    Loading(AddCtx(t, loaded, apid, ctid, Int8(level), Int8(status), 0, 0, description),
            level, status, CanAddCtx(t, apid, ctid, Int8(level), Int8(status)))
  }

  function LoadCtxs(x: Loading, loaded: bool, file: seq<Byte>, pos: nat): Loading
    requires pos <= |file|
    decreases |file| - pos
  {
    if pos == |file| || !x.ok then x
    else LoadCtxs(LoadCtxLine(x, loaded, Line(file, pos)), loaded, file, LineEnd(file, pos, LINE_MAX))
  }

  // ---- what a line gives back

  /** What an empty description comes back as. */
  function Restored(description: seq<Byte>): seq<Byte> {
    if description == [] then [NEWLINE] else description
  }

  /** No ':', newline or NUL. */
  predicate PlainText(s: seq<Byte>) {
    forall j :: 0 <= j < |s| ==> s[j] != COLON && s[j] != NEWLINE && s[j] != 0
  }

  predicate AppPlain(a: Application) {
    a.apid != NO_ID && PlainText(Str(a.apid)) && PlainText(a.description) && |AppLine(a)| <= LINE_MAX
  }

  /** Levels and statuses are any signed bytes. */
  predicate CtxPlain(c: Context) {
    && c.apid != NO_ID && c.ctid != NO_ID && PlainText(Str(c.apid)) && PlainText(Str(c.ctid)) && PlainText(c.description)
    && -128 <= c.level < 128 && -128 <= c.status < 128 && |CtxLine(c)| <= LINE_MAX
  }

  lemma {:induction false} CTextAll(s: seq<Byte>)
    requires forall j :: 0 <= j < |s| ==> s[j] != 0
    ensures CText(s) == s
  {
    if s != [] {
      CTextAll(s[1..]);
    }
  }

  lemma {:induction false} LineEnds(s: seq<Byte>, pos: nat, n: nat, k: nat)
    requires k < n && pos + k < |s| && s[pos + k] == NEWLINE && forall j :: pos <= j < pos + k ==> s[j] != NEWLINE
    ensures LineEnd(s, pos, n) == pos + k + 1
    decreases k
  {
    if k > 0 {
      LineEnds(s, pos + 1, n - 1, k - 1);
    }
  }

  /** A line ends with its only newline. */
  predicate IsLine(line: seq<Byte>) {
    && 0 < |line| <= LINE_MAX && line[|line| - 1] == NEWLINE
    && forall j :: 0 <= j < |line| ==> line[j] != 0 && (line[j] == NEWLINE ==> j == |line| - 1)
  }

  lemma {:induction false} LineRead(pre: seq<Byte>, line: seq<Byte>, rest: seq<Byte>)
    requires IsLine(line)
    ensures var file := pre + line + rest; var e := |pre| + |line|;
      LineEnd(file, |pre|, LINE_MAX) == e <= |file| && Line(file, |pre|) == line
  {
    var file := pre + line + rest;
    var p, k := |pre|, |line| - 1;
    assert forall j :: p <= j <= p + k ==> file[j] == line[j - p];
    LineEnds(file, p, LINE_MAX, k);
    assert file[p..p + k + 1] == line;
    CTextAll(line);
  }

  /** Text between two colons is a token; an empty one is skipped, and the next character with it. */
  lemma {:induction false} TokenBefore(s: seq<Byte>, p: nat, t: seq<Byte>)
    requires p + |t| < |s| && s[p..p + |t|] == t && s[p + |t|] == COLON && t != [] && forall j :: 0 <= j < |t| ==> t[j] != COLON
    ensures StrTok(s, p) == Token(t, p + |t| + 1)
  {
    assert forall j :: p <= j < p + |t| ==> s[j] == s[p..p + |t|][j - p];
    TokenAt(s, p, p, p + |t|);
  }

  lemma {:induction false} LastToken(s: seq<Byte>, p: nat, d: seq<Byte>)
    requires p + |d| + 2 == |s| && s[p..] == d + [COLON, NEWLINE] && forall j :: 0 <= j < |d| ==> d[j] != COLON
    ensures StrTok(s, p).Token? && StrTok(s, p).text == Restored(d)
  {
    var u := s[p..];
    assert u[|d|] == s[p + |d|] && u[|d| + 1] == s[p + |d| + 1];
    if d == [] {
      TokenAt(s, p, p + 1, p + 2);
      assert s[p + 1..p + 2] == [NEWLINE];
    } else {
      assert s[p..p + |d|] == u[..|d|] == d;
      TokenBefore(s, p, d);
    }
  }

  lemma {:induction false} AppLineIsLine(a: Application)
    requires AppPlain(a)
    ensures IsLine(AppLine(a))
  {
    var line, id := AppLine(a), Str(a.apid);
    var n := |id| + 1 + |a.description|;
    forall j | 0 <= j < |line| ensures line[j] != 0 && (line[j] == NEWLINE ==> j == |line| - 1) {
      assert line[j] == if j < |id| then id[j] else if j == |id| then COLON else if j < n then a.description[j - |id| - 1]
        else if j == n then COLON else NEWLINE;
    }
    hide Str;
  }

  lemma {:induction false} SetIdOfStr(i: Id)
    ensures SetId(Str(i)) == i
    ensures i != NO_ID ==> Str(i) != []
  {
  }

  lemma {:induction false} PlainColons(s: seq<Byte>)
    requires PlainText(s)
    ensures forall j :: 0 <= j < |s| ==> s[j] != COLON
  {
  }

  /** An application line registers the application again, with its description. */
  lemma {:induction false} AppLineLoaded(t: Tables, a: Application)
    requires AppPlain(a)
    ensures AppLine(a) == Str(a.apid) + [58] + a.description + [58, 10]
    ensures LoadAppLine(t, AppLine(a)) ==
      AddApp(t, a.apid, 0, if a.description == [] then [10] else a.description, -1, false)
  {
    var line, id := AppLine(a), Str(a.apid);
    SetIdOfStr(a.apid);
    PlainColons(id);
    PlainColons(a.description);
    hide PlainText, Str, SetId, AddApp, StrTok, Restored;
    assert line[..|id|] == id && line[|id|] == COLON && line[|id| + 1..] == a.description + [COLON, NEWLINE];
    TokenBefore(line, 0, id);
    LastToken(line, |id| + 1, a.description);
  }
}

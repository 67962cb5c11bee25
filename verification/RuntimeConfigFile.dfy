/** The loops that write and read the runtime configuration files. */
module RuntimeConfigFile {
  import opened Ids
  import opened Registry
  import opened RegistryTable
  import RegistryLookup
  import opened LogstorageKeys
  import opened RuntimeConfig
  import opened RuntimeConfigLoad

  method ApplicationsSave(list: UserList) returns (file: seq<Byte>)
    ensures file == SaveApps(list.applications)
  {
    hide AppLine, Str;
    file := [];
    var i := 0;
    assert list.applications[0..] == list.applications;
    while i < |list.applications|
      invariant 0 <= i <= |list.applications|
      invariant SaveApps(list.applications) == file + SaveApps(list.applications[i..])
    {
      var a := list.applications[i];
      assert list.applications[i..][1..] == list.applications[i + 1..];
      var line;
      if a.description != [] {
        line := Str(a.apid) + [COLON] + a.description + [COLON, NEWLINE];
      } else {
        line := Str(a.apid) + [COLON, COLON, NEWLINE];
      }
      AppLineWritten(a);
      file := file + line;
      i := i + 1;
    }
  }

  lemma {:induction false} AppLineWritten(a: Application)
    ensures AppLine(a) == if a.description != [] then Str(a.apid) + [COLON] + a.description + [COLON, NEWLINE] else Str(a.apid) + [COLON, COLON, NEWLINE]
  {
  }

  method ContextsSave(list: UserList) returns (file: seq<Byte>)
    ensures file == SaveCtxs(list.contexts)
  {
    hide CtxLine, Str, Dec;
    file := [];
    var i := 0;
    assert list.contexts[0..] == list.contexts;
    while i < |list.contexts|
      invariant 0 <= i <= |list.contexts|
      invariant SaveCtxs(list.contexts) == file + SaveCtxs(list.contexts[i..])
    {
      var c := list.contexts[i];
      assert list.contexts[i..][1..] == list.contexts[i + 1..];
      var line := Str(c.apid) + [COLON] + Str(c.ctid) + [COLON] + Dec(c.level) + [COLON] + Dec(c.status);
      if c.description != [] {
        line := line + [COLON] + c.description + [COLON, NEWLINE];
      } else {
        line := line + [COLON, COLON, NEWLINE];
      }
      CtxLineWritten(c);
      file := file + line;
      i := i + 1;
    }
  }

  lemma {:induction false} CtxLineWritten(c: Context)
    ensures var front := Str(c.apid) + [COLON] + Str(c.ctid) + [COLON] + Dec(c.level) + [COLON] + Dec(c.status);
      CtxLine(c) == if c.description != [] then front + [COLON] + c.description + [COLON, NEWLINE] else front + [COLON, COLON, NEWLINE]
  {
    hide Str, Dec;
  }

  /** Characters up to a newline, as many as the buffer takes. */
  method GetLine(file: seq<Byte>, pos: nat) returns (line: seq<Byte>, next: nat)
    requires pos < |file|
    ensures next == LineEnd(file, pos, LINE_MAX) && line == Line(file, pos) && pos < next
  {
    next := pos;
    var n := LINE_MAX;
    while n > 0 && next < |file|
      invariant pos <= next <= |file| && 0 <= n && (next == pos ==> n > 0)
      invariant LineEnd(file, pos, LINE_MAX) == LineEnd(file, next, n)
    {
      next, n := next + 1, n - 1;
      if file[next - 1] == NEWLINE {
        break;
      }
    }
    line := CText(file[pos..next]);
  }

  method ApplicationsLoad(list: UserList, file: seq<Byte>)
    requires Indexed(list.View()) && list.Room()
    modifies list
    ensures list.View() == LoadApps(old(list.View()), file, 0)
    ensures Indexed(list.View()) && list.Room()
  {
    hide *;
    var pos := 0;
    LoadAppsEnd(list.View(), file);
    while pos < |file|
      invariant pos <= |file| && Indexed(list.View()) && list.Room()
      invariant LoadApps(list.View(), file, pos) == LoadApps(old(list.View()), file, 0)
    {
      LoadAppsStep(list.View(), file, pos);
      var line, next := GetLine(file, pos);
      LoadAppLineIs(list.View(), line);
      var a := StrTok(line, 0);
      if a.Token? {
        var d := StrTok(line, a.next);
        if d.Token? {
          list.AddApplication(SetId(a.text), 0, d.text, FD_INIT, false);
        }
      }
      pos := next;
    }
    LoadAppsEnd(list.View(), file);
  }

  lemma {:induction false} LoadAppsEnd(t: Tables, file: seq<Byte>)
    ensures LoadApps(t, file, |file|) == t
  {
  }

  lemma {:induction false} LoadAppsStep(t: Tables, file: seq<Byte>, pos: nat)
    requires pos < |file|
    ensures LoadApps(t, file, pos) == LoadApps(LoadAppLine(t, Line(file, pos)), file, LineEnd(file, pos, LINE_MAX))
  {
    hide LoadAppLine, Line, LineEnd;
  }

  lemma {:induction false} LoadAppLineIs(t: Tables, line: seq<Byte>)
    ensures var a := StrTok(line, 0);
      && (a.NoToken? ==> LoadAppLine(t, line) == t)
      && (a.Token? ==>
            var d := StrTok(line, a.next);
            LoadAppLine(t, line) == if d.NoToken? then t else AddApp(t, SetId(a.text), 0, d.text, FD_INIT, false))
  {
    hide StrTok, AddApp, SetId;
  }

  method ContextsLoad(list: UserList, loaded: bool, file: seq<Byte>, level0: int, status0: int) returns (ok: bool)
    requires Indexed(list.View()) && list.Room()
    modifies list
    ensures var x := LoadCtxs(Loading(old(list.View()), level0, status0, true), loaded, file, 0);
      list.View() == x.t && ok == x.ok
    ensures Indexed(list.View()) && list.Room()
  {
    hide *;
    var level, status := level0, status0;
    var pos := 0;
    ok := true;
    ghost var all := LoadCtxs(Loading(list.View(), level, status, true), loaded, file, 0);
    while pos < |file|
      invariant pos <= |file| && ok && Indexed(list.View()) && list.Room()
      invariant LoadCtxs(Loading(list.View(), level, status, ok), loaded, file, pos) == all
    {
      LoadCtxsStep(Loading(list.View(), level, status, ok), loaded, file, pos);
      var line, next := GetLine(file, pos);
      ok, level, status := LoadLine(list, loaded, line, level, status);
      if !ok {
        LoadCtxsEnd(Loading(list.View(), level, status, ok), loaded, file, next);
        return;
      }
      pos := next;
    }
    LoadCtxsEnd(Loading(list.View(), level, status, ok), loaded, file, pos);
  }

  lemma {:induction false} LoadCtxsStep(x: Loading, loaded: bool, file: seq<Byte>, pos: nat)
    requires pos < |file| && x.ok
    ensures LoadCtxs(x, loaded, file, pos) == LoadCtxs(LoadCtxLine(x, loaded, Line(file, pos)), loaded, file, LineEnd(file, pos, LINE_MAX))
  {
    hide LoadCtxLine, Line, LineEnd;
  }

  lemma {:induction false} LoadCtxsEnd(x: Loading, loaded: bool, file: seq<Byte>, pos: nat)
    requires pos <= |file| && (pos == |file| || !x.ok)
    ensures LoadCtxs(x, loaded, file, pos) == x
  {
  }

  /** The fields of one line; a number that cannot be read leaves the variable as it was. */
  method LoadLine(list: UserList, loaded: bool, line: seq<Byte>, level0: int, status0: int) returns (ok: bool, level: int, status: int)
    requires Indexed(list.View()) && list.Room()
    modifies list
    ensures Loading(list.View(), level, status, ok) == LoadCtxLine(Loading(old(list.View()), level0, status0, true), loaded, line)
    ensures Indexed(list.View()) && list.Room()
  {
    hide StrTok, ScanInt, SetId, Int8, AddCtx, CanAddCtx, Indexed, AppRoom, CtxRoom;
    ok, level, status := true, level0, status0;
    var a := StrTok(line, 0);
    if a.NoToken? {
      return;
    }
    var c := StrTok(line, a.next);
    if c.NoToken? {
      return;
    }
    var l := StrTok(line, c.next);
    if l.NoToken? {
      return;
    }
    level := ScanInt(l.text, level);
    var s := StrTok(line, l.next);
    if s.NoToken? {
      return;
    }
    status := ScanInt(s.text, status);
    var d := StrTok(line, s.next);
    if d.NoToken? {
      return;
    }
    RegistryLookup.AcceptableIff(list.View(), SetId(a.text), SetId(c.text), Int8(level), Int8(status));
    ok := list.AddContext(loaded, SetId(a.text), SetId(c.text), Int8(level), Int8(status), 0, 0, d.text);
  }
}

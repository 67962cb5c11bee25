/** Setting log levels: which contexts a request reaches, and what becomes of them. */
module LevelScan {
  import opened Ids
  import opened Registry
  import opened RegistryIndex
  import opened RegistryHandles

  /** What sending to an application can do. */
  datatype Outcome = Sent | Refused | Broken

  /** An empty identifier stands for all; a trailing '*' for any ending. */
  datatype LevelRequest = LevelRequest(apid: Id, ctid: Id)

  const STAR: Byte := 42

  /** strncmp: stops behind n characters or at the end of both strings. */
  function StrNCmp(a: seq<Byte>, b: seq<Byte>, n: nat): int
    requires n <= |a| && n <= |b|
  {
    if n == 0 then 0
    else if a[0] != b[0] then a[0] as int - b[0] as int
    else if a[0] == 0 then 0
    else StrNCmp(a[1..], b[1..], n - 1)
  }

  predicate Starred(i: Id) {
    Length(i) > 0 && Bytes(i)[Length(i) - 1] == STAR
  }

  /** What a pattern means: the characters before the '*', or the identifier itself. */
  predicate Fits(pattern: Id, i: Id) {
    if Starred(pattern) then Bytes(i)[..Length(pattern) - 1] == Bytes(pattern)[..Length(pattern) - 1]
    else i == pattern
  }

  /** The contexts that a request is for. With both identifiers given, a '*' is an ordinary character. */
  predicate Targets(q: LevelRequest, c: Context) {
    if q.ctid == NO_ID then q.apid != NO_ID && Fits(q.apid, c.apid)
    else if q.apid == NO_ID then Fits(q.ctid, c.ctid)
    else c.apid == q.apid && c.ctid == q.ctid
  }

  /** Set the level of one context; it stays as it was unless the application took the message. */
  function SendLevel(t: Tables, k: nat, level: int, out: Outcome): (r: Tables)
    requires k < |t.ctxs|
    ensures |r.apps| == |t.apps| && |r.ctxs| == |t.ctxs|
  {
    var c := t.ctxs[k];
    if c.handle < FD_MINIMUM then t
    else match out
      case Sent => t.(ctxs := t.ctxs[k := c.(level := level)])
      case Refused => t
      case Broken => var a := FindApp(t.apps, c.apid); if a < |t.apps| then ResetHandle(t, a) else t
  }

  /** All contexts from k on, one after the other. */
  function FullScan(t: Tables, q: LevelRequest, level: int, outs: nat -> Outcome, k: nat): (r: Tables)
    requires k <= |t.ctxs|
    ensures |r.apps| == |t.apps| && |r.ctxs| == |t.ctxs|
    decreases |t.ctxs| - k
  {
    if k == |t.ctxs| then t
    else FullScan(if Targets(q, t.ctxs[k]) then SendLevel(t, k, level, outs(k)) else t, q, level, outs, k + 1)
  }

  /** What the loop of the daemon compares: the application or the context, up to a length. */
  datatype Pattern = Pattern(app: bool, str: Id, len: nat)

  function Compare(p: Pattern, c: Context): int
    requires p.len <= 4
  {
    StrNCmp(Bytes(if p.app then c.apid else c.ctid), Bytes(p.str), p.len)
  }

  /** The loop of the daemon: comparing applications, it ends at the first one behind the pattern. */
  function EarlyScan(t: Tables, p: Pattern, level: int, outs: nat -> Outcome, k: nat): (r: Tables)
    requires k <= |t.ctxs| && p.len <= 4
    ensures |r.apps| == |t.apps| && |r.ctxs| == |t.ctxs|
    decreases |t.ctxs| - k
  {
    if k == |t.ctxs| then t
    else if Compare(p, t.ctxs[k]) == 0 then EarlyScan(SendLevel(t, k, level, outs(k)), p, level, outs, k + 1)
    else if Compare(p, t.ctxs[k]) > 0 && p.app then t
    else EarlyScan(t, p, level, outs, k + 1)
  }

  /** What the daemon compares for a request with one identifier. */
  function PatternOf(q: LevelRequest): (p: Pattern)
    ensures p.len <= 4
  {
    var id := if q.ctid == NO_ID then q.apid else q.ctid;
    Pattern(q.ctid == NO_ID, id, if Starred(id) then Length(id) - 1 else 4)
  }

  // ---- comparing prefixes

  /** Nothing but zero bytes after the first zero. */
  predicate ZeroPadded(s: seq<Byte>) {
    forall j, k :: 0 <= j <= k < |s| && s[j] == 0 ==> s[k] == 0
  }

  lemma {:induction false} IdPadded(i: Id)
    ensures ZeroPadded(Bytes(i))
  {
  }

  lemma {:induction false} NoDifference(a: seq<Byte>, b: seq<Byte>, n: nat)
    requires n <= |a| && n <= |b|
    ensures MemCmp(a, b, n) == 0 <==> a[..n] == b[..n]
  {
    if n > 0 && a[0] == b[0] {
      NoDifference(a[1..], b[1..], n - 1);
      assert a[..n] == [a[0]] + a[1..][..n - 1];
      assert b[..n] == [b[0]] + b[1..][..n - 1];
    }
  }

  /** On zero-padded identifiers strncmp is memcmp. */
  lemma {:induction false} StrNCmpIsMemCmp(a: seq<Byte>, b: seq<Byte>, n: nat)
    requires n <= |a| && n <= |b| && ZeroPadded(a) && ZeroPadded(b)
    ensures StrNCmp(a, b, n) == MemCmp(a, b, n)
  {
    if n > 0 && a[0] == b[0] {
      if a[0] == 0 {
        assert forall k :: 0 <= k < |a| ==> a[0] == 0 && a[k] == 0;
        assert forall k :: 0 <= k < |b| ==> b[0] == 0 && b[k] == 0;
        NoDifference(a, b, n);
        assert a[..n] == b[..n];
      } else {
        StrNCmpIsMemCmp(a[1..], b[1..], n - 1);
      }
    }
  }

  lemma {:induction false} MemCmpShorter(a: seq<Byte>, b: seq<Byte>, m: nat, n: nat)
    requires m <= n <= |a| && n <= |b| && MemCmp(a, b, n) <= 0
    ensures MemCmp(a, b, m) <= 0
  {
    if m > 0 && a[0] == b[0] {
      MemCmpShorter(a[1..], b[1..], m - 1, n - 1);
    }
  }

  lemma {:induction false} MemCmpAfter(a: seq<Byte>, b: seq<Byte>, p: seq<Byte>, n: nat)
    requires n <= |a| && n <= |b| && n <= |p| && MemCmp(a, b, n) <= 0 && MemCmp(a, p, n) > 0
    ensures MemCmp(b, p, n) > 0
  {
    if a[0] == b[0] && a[0] == p[0] {
      MemCmpAfter(a[1..], b[1..], p[1..], n - 1);
    }
  }

  /** Comparing prefixes is monotone in the order of the table: behind a pattern everything is behind it. */
  lemma {:induction false} BehindPattern(i: Id, j: Id, p: Id, n: nat)
    requires n <= 4 && Num(i) <= Num(j) && StrNCmp(Bytes(i), Bytes(p), n) > 0
    ensures StrNCmp(Bytes(j), Bytes(p), n) > 0
  {
    IdPadded(i);
    IdPadded(j);
    IdPadded(p);
    hide ZeroPadded;
    StrNCmpIsMemCmp(Bytes(i), Bytes(p), n);
    StrNCmpIsMemCmp(Bytes(j), Bytes(p), n);
    CompareIsNum(i, j);
    NumInjective(i, j);
    hide *;
    MemCmpShorter(Bytes(i), Bytes(j), n, 4);
    MemCmpAfter(Bytes(i), Bytes(j), Bytes(p), n);
  }

  /** The comparison of the daemon decides what the pattern means. */
  lemma {:induction false} FitsIsCompare(p: Id, i: Id)
    ensures var n := if Starred(p) then Length(p) - 1 else 4;
      Fits(p, i) <==> StrNCmp(Bytes(i), Bytes(p), n) == 0
  {
    var n := if Starred(p) then Length(p) - 1 else 4;
    IdPadded(i);
    IdPadded(p);
    StrNCmpIsMemCmp(Bytes(i), Bytes(p), n);
    NoDifference(Bytes(i), Bytes(p), n);
    hide ZeroPadded, StrNCmp, MemCmp;
    assert Bytes(i)[..4] == Bytes(i) && Bytes(p)[..4] == Bytes(p);
    if Bytes(i) == Bytes(p) {
      assert Bytes(i)[0] == Bytes(p)[0] && Bytes(i)[1] == Bytes(p)[1] && Bytes(i)[2] == Bytes(p)[2] && Bytes(i)[3] == Bytes(p)[3];
    }
  }

  /** A request that names one identifier and not the other. */
  predicate Single(q: LevelRequest) {
    (q.apid == NO_ID) != (q.ctid == NO_ID)
  }

  lemma {:induction false} TargetIsCompare(q: LevelRequest, c: Context)
    requires Single(q)
    ensures Targets(q, c) <==> Compare(PatternOf(q), c) == 0
  {
    FitsIsCompare(q.apid, c.apid);
    FitsIsCompare(q.ctid, c.ctid);
    hide Fits, StrNCmp, Starred;
  }

  // ---- the early end

  lemma {:induction false} SendLevelSameIds(t: Tables, k: nat, level: int, out: Outcome)
    requires k < |t.ctxs|
    ensures SameCtids(t.ctxs, SendLevel(t, k, level, out).ctxs)
  {
    hide FindApp;
  }

  lemma {:induction false} SameIdsSorted(a: seq<Context>, b: seq<Context>)
    requires SortedCtxs(a) && SameCtids(a, b)
    ensures SortedCtxs(b)
  {
    assert forall k :: 0 <= k < |a| ==> CtxKey(a[k]) == CtxKey(b[k]);
  }

  /** Behind the pattern nothing is left to do. */
  lemma {:induction false} NothingBehind(t: Tables, q: LevelRequest, level: int, outs: nat -> Outcome, k: nat)
    requires k <= |t.ctxs| && SortedCtxs(t.ctxs) && Single(q) && q.ctid == NO_ID
    requires k < |t.ctxs| ==> Compare(PatternOf(q), t.ctxs[k]) > 0
    ensures FullScan(t, q, level, outs, k) == t
    decreases |t.ctxs| - k
  {
    hide Targets, StrNCmp, SortedCtxs, SendLevel;
    if k < |t.ctxs| {
      TargetIsCompare(q, t.ctxs[k]);
      if k + 1 < |t.ctxs| {
        ApidsSorted(t.ctxs, k, k + 1);
        BehindPattern(t.ctxs[k].apid, t.ctxs[k + 1].apid, q.apid, PatternOf(q).len);
      }
      NothingBehind(t, q, level, outs, k + 1);
    }
  }

  /** The loop with the early end visits the same contexts as a full scan. */
  lemma {:induction false} EarlyIsFull(t: Tables, q: LevelRequest, level: int, outs: nat -> Outcome, k: nat)
    requires k <= |t.ctxs| && SortedCtxs(t.ctxs) && Single(q)
    ensures EarlyScan(t, PatternOf(q), level, outs, k) == FullScan(t, q, level, outs, k)
    decreases |t.ctxs| - k
  {
    hide Targets, Compare, SortedCtxs, SendLevel, Starred;
    if k < |t.ctxs| {
      var c := t.ctxs[k];
      TargetIsCompare(q, c);
      if Compare(PatternOf(q), c) == 0 {
        var u := SendLevel(t, k, level, outs(k));
        SendLevelSameIds(t, k, level, outs(k));
        SameIdsSorted(t.ctxs, u.ctxs);
        EarlyIsFull(u, q, level, outs, k + 1);
      } else if Compare(PatternOf(q), c) > 0 && q.ctid == NO_ID {
        NothingBehind(t, q, level, outs, k);
      } else {
        EarlyIsFull(t, q, level, outs, k + 1);
      }
    }
  }

  // ---- what is kept

  lemma {:induction false} SendLevelKept(t: Tables, k: nat, level: int, out: Outcome)
    requires Indexed(t) && Owned(t) && k < |t.ctxs|
    ensures Indexed(SendLevel(t, k, level, out)) && Owned(SendLevel(t, k, level, out))
  {
    SendLevelSameIds(t, k, level, out);
    SameIdsIndexed(t, SendLevel(t, k, level, out));
    var a := FindApp(t.apps, t.ctxs[k].apid);
    if a < |t.apps| {
      ResetOwned(t, a);
    }
    hide Indexed, ResetHandle, FindApp;
  }

  /** A request to set levels keeps the index and the ownership of connections. */
  lemma {:induction false} FullScanKeeps(t: Tables, q: LevelRequest, level: int, outs: nat -> Outcome, k: nat)
    requires Indexed(t) && Owned(t) && k <= |t.ctxs|
    ensures Indexed(FullScan(t, q, level, outs, k)) && Owned(FullScan(t, q, level, outs, k))
    decreases |t.ctxs| - k
  {
    hide Indexed, Owned, SendLevel, Targets;
    if k < |t.ctxs| {
      SendLevelKept(t, k, level, outs(k));
      FullScanKeeps(if Targets(q, t.ctxs[k]) then SendLevel(t, k, level, outs(k)) else t, q, level, outs, k + 1);
    }
  }
}

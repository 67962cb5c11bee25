/** The keys of logstorage filters: how they are built, split and compared. */
module LogstorageKeys {
  import opened Ids
  import opened Registry
  import opened LevelScan

  const COLON: Byte := 58

  /** ".*" */
  const WILDCARD: seq<Byte> := [46, 42]

  /** A key of a filter; an empty part was not given, or was a wildcard. */
  datatype Key = Key(ecu: seq<Byte>, apid: seq<Byte>, ctid: seq<Byte>)

  /** At most four characters without ':' and NUL. */
  predicate NameOk(s: seq<Byte>) {
    |s| <= 4 && forall j :: 0 <= j < |s| ==> s[j] != COLON && s[j] != 0
  }

  predicate NamesOk(k: Key) {
    NameOk(k.ecu) && NameOk(k.apid) && NameOk(k.ctid)
  }

  /** The key of a filter: no part is the wildcard, and two wildcards need an ECU. */
  predicate KeyOk(k: Key) {
    NamesOk(k) && k.apid != WILDCARD && k.ctid != WILDCARD && (k.apid == [] && k.ctid == [] ==> k.ecu != [])
  }

  function Render(k: Key): (s: seq<Byte>)
    ensures |s| == |k.ecu| + |k.apid| + |k.ctid| + 2
  {
    k.ecu + [COLON] + k.apid + [COLON] + k.ctid
  }

  // ---- splitting

  /** Position of the first ':' from p on, or the end. */
  function ColonAt(s: seq<Byte>, p: nat): (q: nat)
    requires p <= |s|
    ensures p <= q <= |s|
    ensures q < |s| ==> s[q] == COLON
    ensures forall j :: p <= j < q ==> s[j] != COLON
    decreases |s| - p
  {
    if p == |s| || s[p] == COLON then p else ColonAt(s, p + 1)
  }

  function SkipColons(s: seq<Byte>, p: nat): (q: nat)
    requires p <= |s|
    ensures p <= q <= |s|
    decreases |s| - p
  {
    if p < |s| && s[p] == COLON then SkipColons(s, p + 1) else p
  }

  /** strtok with ':': a token, and where to go on; no token at the end. */
  datatype Token = NoToken | Token(text: seq<Byte>, next: nat)

  function StrTok(s: seq<Byte>, p: nat): (t: Token)
    requires p <= |s|
    ensures t.Token? ==> t.next <= |s|
  {
    var a := SkipColons(s, p);
    if a == |s| then NoToken
    else
      var e := ColonAt(s, a);
      Token(s[a..e], if e < |s| then e + 1 else e)
  }

  datatype Split = Bad | Parts(ecu: seq<Byte>, apid: seq<Byte>, ctid: seq<Byte>)

  function Prefix(s: seq<Byte>, n: nat): seq<Byte> {
    if |s| <= n then s else s[..n]
  }

  function SplitEcu(s: seq<Byte>): Split {
    if |s| > 6 || |s| < 2 then Bad else Parts(s[..|s| - 2], WILDCARD, WILDCARD)
  }

  function SplitCtid(s: seq<Byte>): Split
    requires |s| >= 2
  {
    if |s| > 6 then Bad else Parts([], WILDCARD, s[2..])
  }

  function SplitApid(s: seq<Byte>): Split {
    if |s| > 6 || |s| < 2 then Bad else Parts([], s[1..|s| - 1], WILDCARD)
  }

  function SplitApidCtid(s: seq<Byte>): Split {
    var a := StrTok(s, 0);
    if |s| > 15 || a.NoToken? then Bad
    else
      var c := StrTok(s, a.next);
      if c.NoToken? then Bad else Parts([], Prefix(a.text, 4), Prefix(c.text, 4))
  }

  function SplitEcuApid(s: seq<Byte>): Split {
    var e := StrTok(s, 0);
    if |s| > 15 || e.NoToken? then Bad
    else
      var a := StrTok(s, e.next);
      if a.NoToken? then Bad else Parts(Prefix(e.text, 4), Prefix(a.text, 4), WILDCARD)
  }

  function SplitMulti(s: seq<Byte>): Split {
    var e := StrTok(s, 0);
    if |s| > 15 || e.NoToken? then Bad
    else
      var n := |e.text|;
      var second := StrTok(s, e.next);
      if n + 1 < |s| && s[n + 1] == COLON then
        Parts(Prefix(e.text, 4), WILDCARD, if second.Token? then Prefix(second.text, 4) else [])
      else if second.NoToken? then Bad
      else
        var c := StrTok(s, second.next);
        if c.NoToken? then Bad else Parts(Prefix(e.text, 4), Prefix(second.text, 4), Prefix(c.text, 4))
  }

  /** The shapes are told apart by where the colons stand. */
  function SplitKey(s: seq<Byte>): Split {
    var n := |s|;
    if n < 2 || ColonAt(s, 0) == n then Bad
    else if s[n - 1] == COLON && s[n - 2] == COLON then SplitEcu(s)
    else if s[0] == COLON && s[1] == COLON then SplitCtid(s)
    else if s[0] == COLON && s[n - 1] == COLON then SplitApid(s)
    else if s[0] == COLON then SplitApidCtid(s)
    else if s[n - 1] == COLON then SplitEcuApid(s)
    else SplitMulti(s)
  }

  /** A part that was not given is taken for a wildcard. */
  function Wild(s: seq<Byte>): seq<Byte> {
    if s == [] then WILDCARD else s
  }

  lemma {:induction false} ColonAfter(s: seq<Byte>, p: nat, q: nat)
    requires p <= q <= |s| && (q < |s| ==> s[q] == COLON) && forall j :: p <= j < q ==> s[j] != COLON
    ensures ColonAt(s, p) == q
    decreases q - p
  {
    if p < q {
      ColonAfter(s, p + 1, q);
    }
  }

  /** Where a token stands. */
  lemma {:induction false} TokenAt(s: seq<Byte>, p: nat, a: nat, e: nat)
    requires p <= a < e <= |s|
    requires forall j :: p <= j < a ==> s[j] == COLON
    requires forall j :: a <= j < e ==> s[j] != COLON
    requires e < |s| ==> s[e] == COLON
    ensures StrTok(s, p) == Token(s[a..e], if e < |s| then e + 1 else e)
  {
    SkipTo(s, p, a);
    ColonAfter(s, a, e);
  }

  lemma {:induction false} SkipTo(s: seq<Byte>, p: nat, a: nat)
    requires p <= a < |s| && s[a] != COLON && forall j :: p <= j < a ==> s[j] == COLON
    ensures SkipColons(s, p) == a
    decreases a - p
  {
    if p < a {
      SkipTo(s, p + 1, a);
    }
  }

  /** m and n are where the colons of the key stand. */
  predicate ColonsAt(s: seq<Byte>, m: nat, n: nat) {
    m < n < |s| <= 14 && s[m] == COLON && s[n] == COLON && forall j :: 0 <= j < |s| ==> (s[j] == COLON <==> j == m || j == n)
  }

  /** What stands where in a key. */
  lemma {:induction false} RenderParts(k: Key)
    requires NamesOk(k)
    ensures var s := Render(k); var m := |k.ecu|; var n := m + 1 + |k.apid|;
      && |s| == n + 1 + |k.ctid| && ColonsAt(s, m, n)
      && s[..m] == k.ecu && s[m + 1..n] == k.apid && s[n + 1..] == k.ctid
      && m <= 4 && |k.apid| <= 4 && |k.ctid| <= 4
  {
    var s := Render(k);
    var m := |k.ecu|;
    var n := m + 1 + |k.apid|;
    assert s[..m] == k.ecu && s[m + 1..n] == k.apid && s[n + 1..] == k.ctid;
    forall j | 0 <= j < |s| ensures s[j] == COLON <==> j == m || j == n {
      if j < m {
        assert s[j] == k.ecu[j];
      } else if m < j < n {
        assert s[j] == k.apid[j - m - 1];
      } else if n < j {
        assert s[j] == k.ctid[j - n - 1];
      }
    }
  }

  lemma {:induction false} HasColon(s: seq<Byte>, m: nat)
    requires m < |s| && s[m] == COLON
    ensures ColonAt(s, 0) < |s|
  {
  }

  /** ":apid:ctid" */
  lemma {:induction false} SplitPair(s: seq<Byte>, n: nat)
    requires ColonsAt(s, 0, n) && 1 < n < |s| - 1 && n <= 5 && |s| - n <= 5
    ensures SplitKey(s) == Parts([], s[1..n], s[n + 1..])
  {
    HasColon(s, 0);
    TokenAt(s, 0, 1, n);
    TokenAt(s, n + 1, n + 1, |s|);
    hide StrTok, ColonAt;
    assert s[n + 1..|s|] == s[n + 1..];
  }

  /** "ecu:apid:" */
  lemma {:induction false} SplitEcuAndApid(s: seq<Byte>, m: nat)
    requires 0 < m <= 4 && |s| > 1 && ColonsAt(s, m, |s| - 1) && m + 1 < |s| - 1 <= m + 5
    ensures SplitKey(s) == Parts(s[..m], s[m + 1..|s| - 1], WILDCARD)
  {
    HasColon(s, m);
    TokenAt(s, 0, 0, m);
    TokenAt(s, m + 1, m + 1, |s| - 1);
    hide StrTok, ColonAt;
    assert s[0..m] == s[..m];
  }

  /** "ecu::ctid" */
  lemma {:induction false} SplitEcuAndCtid(s: seq<Byte>, m: nat)
    requires ColonsAt(s, m, m + 1) && 0 < m <= 4 && m + 2 < |s| <= m + 6
    ensures SplitKey(s) == Parts(s[..m], WILDCARD, s[m + 2..])
  {
    HasColon(s, m);
    TokenAt(s, 0, 0, m);
    TokenAt(s, m + 1, m + 2, |s|);
    hide StrTok, ColonAt;
    assert s[0..m] == s[..m] && s[m + 2..|s|] == s[m + 2..];
  }

  /** "ecu:apid:ctid" */
  lemma {:induction false} SplitAll(s: seq<Byte>, m: nat, n: nat)
    requires ColonsAt(s, m, n) && 0 < m <= 4 && m + 1 < n <= m + 5 && n + 1 < |s| <= n + 5
    ensures SplitKey(s) == Parts(s[..m], s[m + 1..n], s[n + 1..])
  {
    HasColon(s, m);
    TokenAt(s, 0, 0, m);
    TokenAt(s, m + 1, m + 1, n);
    TokenAt(s, n + 1, n + 1, |s|);
    hide StrTok, ColonAt;
    assert s[0..m] == s[..m] && s[n + 1..|s|] == s[n + 1..];
  }

  /** "ecu::", "::ctid" and ":apid:" */
  lemma {:induction false} SplitOne(s: seq<Byte>, m: nat, n: nat)
    requires ColonsAt(s, m, n) && 2 < |s| <= 6
    ensures m == |s| - 2 && n == |s| - 1 ==> SplitKey(s) == Parts(s[..m], WILDCARD, WILDCARD)
    ensures m == 0 && n == 1 ==> SplitKey(s) == Parts([], WILDCARD, s[2..])
    ensures m == 0 && n == |s| - 1 ==> SplitKey(s) == Parts([], s[1..n], WILDCARD)
  {
    HasColon(s, m);
    hide StrTok, ColonAt;
  }

  lemma {:induction false} SplitWithoutEcu(s: seq<Byte>, n: nat)
    requires ColonsAt(s, 0, n) && n <= 5 && |s| <= n + 5 && |s| > 2
    ensures SplitKey(s) == Parts([], Wild(s[1..n]), Wild(s[n + 1..]))
  {
    WildIs(s[1..n]);
    WildIs(s[n + 1..]);
    hide SplitKey, ColonsAt, Wild;
    if n == 1 || n == |s| - 1 {
      SplitOne(s, 0, n);
    } else {
      SplitPair(s, n);
    }
  }

  lemma {:induction false} SplitWithEcu(s: seq<Byte>, m: nat, n: nat)
    requires ColonsAt(s, m, n) && 0 < m <= 4 && n <= m + 5 && |s| <= n + 5
    ensures SplitKey(s) == Parts(s[..m], Wild(s[m + 1..n]), Wild(s[n + 1..]))
  {
    WildIs(s[m + 1..n]);
    WildIs(s[n + 1..]);
    hide SplitKey, ColonsAt, Wild;
    if n == |s| - 1 {
      if n == m + 1 {
        SplitOne(s, m, n);
      } else {
        SplitEcuAndApid(s, m);
      }
    } else if n == m + 1 {
      SplitEcuAndCtid(s, m);
    } else {
      SplitAll(s, m, n);
    }
  }

  /** Splitting undoes building, for every shape of key. */
  lemma {:induction false} SplitRender(k: Key)
    requires KeyOk(k)
    ensures SplitKey(Render(k)) == Parts(k.ecu, Wild(k.apid), Wild(k.ctid))
  {
    assert NamesOk(k) && (k.apid == [] && k.ctid == [] ==> k.ecu != []);
    hide *;
    RenderParts(k);
    var s := Render(k);
    var m := |k.ecu|;
    var n := m + 1 + |k.apid|;
    if m == 0 {
      SplitWithoutEcu(s, n);
    } else {
      SplitWithEcu(s, m, n);
    }
  }

  lemma {:induction false} WildIs(s: seq<Byte>)
    ensures s == [] ==> Wild(s) == WILDCARD
    ensures s != [] ==> Wild(s) == s
  {
  }

  /** Only the two colons of the key are there to separate its parts. */
  lemma {:induction false} SameColons(s: seq<Byte>, m: nat, n: nat, a: nat, b: nat)
    requires ColonsAt(s, m, n) && a < b < |s| && s[a] == COLON && s[b] == COLON
    ensures m == a && n == b
  {
  }

  lemma {:induction false} PartsOf(k: Key)
    ensures var s := Render(k); var m := |k.ecu|; var n := m + 1 + |k.apid|;
      && n < |s| && s[m] == COLON && s[n] == COLON
      && s[..m] == k.ecu && s[m + 1..n] == k.apid && s[n + 1..] == k.ctid
  {
    var s := Render(k);
    var m := |k.ecu|;
    var n := m + 1 + |k.apid|;
    assert s[..m] == k.ecu && s[m + 1..n] == k.apid && s[n + 1..] == k.ctid;
  }

  /** Whatever is written like a key is that key: more colons than two are seen. */
  lemma {:induction false} RenderInjective(k: Key, l: Key)
    requires NamesOk(k) && Render(k) == Render(l)
    ensures k == l
  {
    RenderParts(k);
    PartsOf(l);
    hide *;
    SameColons(Render(k), |k.ecu|, |k.ecu| + 1 + |k.apid|, |l.ecu|, |l.ecu| + 1 + |l.apid|);
  }
}

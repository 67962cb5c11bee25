/** The connections of the daemon and the descriptors it polls, on values. */
module EventHandler {

  const CLIENT_CONNECT := 1
  const CLIENT_MSG_TCP := 2
  const CLIENT_MSG_SERIAL := 3

  /** `kind` is the type of the connection, `mask` the events it waits for. */
  datatype Conn = Conn(fd: int, kind: nat, active: bool, mask: int)

  datatype PollFd = PollFd(fd: int, events: int, revents: int)

  const UNUSED := PollFd(-1, 0, 0)

  /** `open` are the descriptors that exist for the system, whether or not a connection has them. */
  datatype Handler = Handler(conns: seq<Conn>, polled: seq<PollFd>, clients: int, open: set<int>)

  /** Which types of connections the current filter admits. */
  type Admitted = nat -> bool

  predicate IsClient(kind: nat) {
    kind == CLIENT_MSG_TCP || kind == CLIENT_MSG_SERIAL
  }

  /** The first entry with the descriptor, or the length. */
  function FindPolled(polled: seq<PollFd>, fd: int): (i: nat)
    ensures i <= |polled|
    ensures i < |polled| ==> polled[i].fd == fd
    ensures forall j :: 0 <= j < i ==> polled[j].fd != fd
  {
    if polled == [] || polled[0].fd == fd then 0 else 1 + FindPolled(polled[1..], fd)
  }

  function FindConn(conns: seq<Conn>, fd: int): (i: nat)
    ensures i <= |conns|
    ensures i < |conns| ==> conns[i].fd == fd
    ensures forall j :: 0 <= j < i ==> conns[j].fd != fd
  {
    if conns == [] || conns[0].fd == fd then 0 else 1 + FindConn(conns[1..], fd)
  }

  /** The first connection of a type, or the length. */
  function FindKind(conns: seq<Conn>, kind: nat): (i: nat)
    ensures i <= |conns|
    ensures i < |conns| ==> conns[i].kind == kind
    ensures forall j :: 0 <= j < i ==> conns[j].kind != kind
  {
    if conns == [] || conns[0].kind == kind then 0 else 1 + FindKind(conns[1..], kind)
  }

  function Without<T>(s: seq<T>, i: nat): (r: seq<T>)
    requires i < |s|
    ensures |r| == |s| - 1
  {
    s[..i] + s[i + 1..]
  }

  function Enable(polled: seq<PollFd>, fd: int, mask: int): seq<PollFd> {
    polled + [PollFd(fd, mask, 0)]
  }

  /** One entry goes, the others move up in their order. */
  function Disable(polled: seq<PollFd>, fd: int): seq<PollFd> {
    var i := FindPolled(polled, fd);
    if i < |polled| then Without(polled, i) else polled
  }

  function Deactivate(h: Handler, i: nat): (r: Handler)
    requires i < |h.conns|
    ensures |r.conns| == |h.conns|
  {
    var c := h.conns[i];
    h.(conns := h.conns[i := c.(active := false, fd := if c.kind == CLIENT_CONNECT then -1 else c.fd)],
       polled := Disable(h.polled, c.fd))
  }

  function Activate(h: Handler, i: nat): (r: Handler)
    requires i < |h.conns|
    ensures |r.conns| == |h.conns|
  {
    var c := h.conns[i];
    h.(conns := h.conns[i := c.(active := true)], polled := Enable(h.polled, c.fd, c.mask))
  }

  /** Bring a connection in line with the filter and with what is asked for. */
  function CheckActivate(h: Handler, i: nat, admitted: Admitted, activate: bool): (r: Handler)
    requires i < |h.conns|
    ensures |r.conns| == |h.conns|
  {
    var c := h.conns[i];
    if c.active then (if !admitted(c.kind) || !activate then Deactivate(h, i) else h)
    else (if admitted(c.kind) && activate then Activate(h, i) else h)
  }

  /** The new connection at the end of the list, not yet active. */
  function Appended(h: Handler, fd: int, kind: nat, mask: int): (r: Handler)
    ensures |r.conns| == |h.conns| + 1
  {
    h.(conns := h.conns + [Conn(fd, kind, false, mask)], clients := h.clients + if IsClient(kind) then 1 else 0)
  }

  function Register(h: Handler, fd: int, kind: nat, mask: int, admitted: Admitted): Handler {
    CheckActivate(Appended(h, fd, kind, mask), |h.conns|, admitted, true)
  }

  /** The caller hands over an open descriptor. Nothing is created for no descriptor, or for a known one. */
  function Create(h: Handler, fd: int, kind: nat, mask: int, admitted: Admitted): Handler {
    if fd < 0 then h
    else
      var u := Opened(h, fd);
      if FindConn(h.conns, fd) < |h.conns| then u else Register(u, fd, kind, mask, admitted)
  }

  function Opened(h: Handler, fd: int): Handler {
    h.(open := h.open + {fd})
  }

  function Closed(h: Handler, fd: int): Handler {
    h.(open := h.open - {fd})
  }

  /** The counter never gets below 0. */
  function OneLess(clients: int, kind: nat): int {
    if !IsClient(kind) then clients else if clients - 1 < 0 then 0 else clients - 1
  }

  /** The connection goes and the descriptor it still has is closed. */
  function Unregister(h: Handler, fd: int, admitted: Admitted): Handler {
    var i := FindConn(h.conns, fd);
    if i == |h.conns| then h
    else
      var u := CheckActivate(h.(clients := OneLess(h.clients, h.conns[i].kind)), i, admitted, false);
      Closed(u.(conns := Without(u.conns, i)), u.conns[i].fd)
  }

  /** The filter changed. Without a listening connection one is created. Otherwise, with clients admitted, it
      gets a new socket if it lost its own; without, its socket is closed. Then it is activated or
      deactivated. Clients decide because the mask of the listening type, which is the number of their type,
      is passed where a type is expected. Opening the socket gives fd. */
  function FilterChanged(h: Handler, fd: int, mask: int, admitted: Admitted): Handler {
    var i := FindKind(h.conns, CLIENT_CONNECT);
    if i == |h.conns| then
      if admitted(CLIENT_CONNECT) && fd >= 0 then Create(h, fd, CLIENT_CONNECT, mask, admitted) else h
    else if admitted(CLIENT_MSG_TCP) then
      if h.conns[i].fd != -1 then CheckActivate(h, i, admitted, true)
      else if fd < 0 then h
      else CheckActivate(Opened(WithFd(h, i, fd), fd), i, admitted, true)
    else
      CheckActivate(Closed(h, h.conns[i].fd), i, admitted, true)
  }

  function WithFd(h: Handler, i: nat, fd: int): (r: Handler)
    requires i < |h.conns|
    ensures |r.conns| == |h.conns|
  {
    h.(conns := h.conns[i := h.conns[i].(fd := fd)])
  }

  // ---- the invariant

  function PolledFds(polled: seq<PollFd>): multiset<int> {
    if polled == [] then multiset{} else multiset{polled[0].fd} + PolledFds(polled[1..])
  }

  /** The descriptors of the active connections. */
  function ActiveFds(conns: seq<Conn>): multiset<int> {
    if conns == [] then multiset{}
    else (if conns[0].active then multiset{conns[0].fd} else multiset{}) + ActiveFds(conns[1..])
  }

  function Clients(conns: seq<Conn>): nat {
    if conns == [] then 0 else (if IsClient(conns[0].kind) then 1 else 0) + Clients(conns[1..])
  }

  /** No two connections share a descriptor. */
  predicate DistinctFds(conns: seq<Conn>) {
    forall i, j :: 0 <= i < j < |conns| ==> conns[i].fd != conns[j].fd
  }

  /** Only the first listening connection may be without a descriptor. */
  predicate FdsKnown(conns: seq<Conn>) {
    forall i :: 0 <= i < |conns| ==> conns[i].fd >= 0 || (conns[i].fd == -1 && i == FindKind(conns, CLIENT_CONNECT))
  }

  predicate Inv(h: Handler) {
    && DistinctFds(h.conns) && FdsKnown(h.conns)
    && PolledFds(h.polled) == ActiveFds(h.conns)
    && h.clients == Clients(h.conns)
  }

  /** The books do not depend on what the system has open. */
  lemma {:induction false} OpenAside(h: Handler, open: set<int>)
    ensures Inv(h) <==> Inv(h.(open := open))
  {
  }

  // ---- splitting

  lemma {:induction false} PolledSplit(a: seq<PollFd>, b: seq<PollFd>)
    ensures PolledFds(a + b) == PolledFds(a) + PolledFds(b)
  {
    if a == [] {
      assert a + b == b;
    } else {
      var first := multiset{a[0].fd};
      assert (a + b)[1..] == a[1..] + b;
      calc {
        PolledFds(a + b);
        first + PolledFds(a[1..] + b);
        { PolledSplit(a[1..], b); }
        first + (PolledFds(a[1..]) + PolledFds(b));
        (first + PolledFds(a[1..])) + PolledFds(b);
      }
    }
  }

  lemma {:induction false} ActiveSplit(a: seq<Conn>, b: seq<Conn>)
    ensures ActiveFds(a + b) == ActiveFds(a) + ActiveFds(b)
    ensures Clients(a + b) == Clients(a) + Clients(b)
  {
    if a == [] {
      assert a + b == b;
    } else {
      var first := if a[0].active then multiset{a[0].fd} else multiset{};
      assert (a + b)[1..] == a[1..] + b;
      ActiveSplit(a[1..], b);
      calc {
        ActiveFds(a + b);
        first + ActiveFds(a[1..] + b);
        first + (ActiveFds(a[1..]) + ActiveFds(b));
        (first + ActiveFds(a[1..])) + ActiveFds(b);
      }
    }
  }

  function OneActive(c: Conn): multiset<int> {
    if c.active then multiset{c.fd} else multiset{}
  }

  lemma {:induction false} ActiveOne(c: Conn)
    ensures ActiveFds([c]) == OneActive(c)
    ensures Clients([c]) == if IsClient(c.kind) then 1 else 0
  {
    assert ActiveFds([c][1..]) == multiset{};
  }

  /** The connection at index i, and the rest. */
  lemma {:induction false} ActiveAt(conns: seq<Conn>, i: nat)
    requires i < |conns|
    ensures ActiveFds(conns) == OneActive(conns[i]) + ActiveFds(Without(conns, i))
    ensures Clients(conns) == (if IsClient(conns[i].kind) then 1 else 0) + Clients(Without(conns, i))
  {
    var a, b := conns[..i], conns[i + 1..];
    assert conns == a + ([conns[i]] + b);
    hide ActiveFds, Clients, OneActive;
    ActiveSplit(a, [conns[i]] + b);
    ActiveSplit([conns[i]], b);
    ActiveSplit(a, b);
    ActiveOne(conns[i]);
  }

  lemma {:induction false} ReplacedWithout(conns: seq<Conn>, i: nat, c: Conn)
    requires i < |conns|
    ensures Without(conns[i := c], i) == Without(conns, i)
  {
  }

  lemma {:induction false} PolledAt(polled: seq<PollFd>, i: nat)
    requires i < |polled|
    ensures PolledFds(polled) == multiset{polled[i].fd} + PolledFds(Without(polled, i))
  {
    var a, b := polled[..i], polled[i + 1..];
    assert polled == a + ([polled[i]] + b);
    PolledSplit(a, [polled[i]] + b);
    PolledSplit([polled[i]], b);
    PolledSplit(a, b);
    assert PolledFds([polled[i]][1..]) == multiset{};
  }

  lemma {:induction false} PolledIn(polled: seq<PollFd>, fd: int)
    ensures fd in PolledFds(polled) <==> FindPolled(polled, fd) < |polled|
  {
    if polled != [] {
      PolledIn(polled[1..], fd);
    }
  }

  lemma {:induction false} ActiveIn(conns: seq<Conn>, fd: int)
    ensures fd in ActiveFds(conns) <==> exists i :: 0 <= i < |conns| && conns[i].active && conns[i].fd == fd
  {
    if conns != [] {
      ActiveIn(conns[1..], fd);
      assert forall i :: 0 <= i < |conns[1..]| ==> conns[1..][i] == conns[i + 1];
      if exists i :: 0 <= i < |conns| && conns[i].active && conns[i].fd == fd {
        var i :| 0 <= i < |conns| && conns[i].active && conns[i].fd == fd;
        assert i > 0 ==> conns[1..][i - 1] == conns[i];
      }
    }
  }

  // ---- disabling and enabling

  /** The descriptor is taken out once; all others stay. */
  lemma {:induction false} DisableOnce(polled: seq<PollFd>, fd: int)
    ensures PolledFds(Disable(polled, fd)) == PolledFds(polled) - multiset{fd}
  {
    PolledIn(polled, fd);
    var i := FindPolled(polled, fd);
    if i < |polled| {
      PolledAt(polled, i);
    }
  }

  /** Where the entries stand afterwards, if each descriptor is polled once. */
  lemma {:induction false} DisableAt(polled: seq<PollFd>, fd: int)
    requires PolledOnce(polled)
    ensures var i, n, r := FindPolled(polled, fd), |polled|, Disable(polled, fd);
      && (forall k :: 0 <= k < n ==> (polled[k].fd == fd <==> k == i))
      && |r| == (if i < n then n - 1 else n)
      && (forall k :: 0 <= k < |r| ==> r[k] == polled[if k < i then k else k + 1])
  {
  }

  lemma {:induction false} EnableOnce(polled: seq<PollFd>, fd: int, mask: int)
    ensures PolledFds(Enable(polled, fd, mask)) == PolledFds(polled) + multiset{fd}
  {
    PolledSplit(polled, [PollFd(fd, mask, 0)]);
    assert PolledFds([PollFd(fd, mask, 0)][1..]) == multiset{};
  }

  /** Same types at the same places. */
  predicate SameKinds(a: seq<Conn>, b: seq<Conn>) {
    |a| == |b| && forall i :: 0 <= i < |a| ==> a[i].kind == b[i].kind
  }

  lemma {:induction false} SameFirst(a: seq<Conn>, b: seq<Conn>, kind: nat)
    requires SameKinds(a, b)
    ensures FindKind(a, kind) == FindKind(b, kind)
  {
  }

  lemma {:induction false} ActivateFds(h: Handler, i: nat)
    requires i < |h.conns| && !h.conns[i].active && PolledFds(h.polled) == ActiveFds(h.conns)
    ensures var u := Activate(h, i); PolledFds(u.polled) == ActiveFds(u.conns) && Clients(u.conns) == Clients(h.conns)
  {
    var u, c := Activate(h, i), h.conns[i];
    EnableOnce(h.polled, c.fd, c.mask);
    ActiveAt(h.conns, i);
    ActiveAt(u.conns, i);
    ReplacedWithout(h.conns, i, c.(active := true));
    hide ActiveFds, PolledFds, Clients, Enable, Without;
  }

  lemma {:induction false} ActivateKeeps(h: Handler, i: nat)
    requires Inv(h) && i < |h.conns| && !h.conns[i].active
    ensures Inv(Activate(h, i))
  {
    var u := Activate(h, i);
    ActivateFds(h, i);
    SameFirst(h.conns, u.conns, CLIENT_CONNECT);
    hide ActiveFds, PolledFds, Clients, Enable, FindKind;
  }

  /** Deactivating changes the activity of one connection, and may take its descriptor. */
  lemma {:induction false} DeactivateFds(h: Handler, i: nat)
    requires Inv(h) && i < |h.conns| && h.conns[i].active
    ensures var u := Deactivate(h, i); PolledFds(u.polled) == ActiveFds(u.conns) && Clients(u.conns) == Clients(h.conns)
    ensures Without(Deactivate(h, i).conns, i) == Without(h.conns, i)
  {
    var u, c := Deactivate(h, i), h.conns[i];
    DisableOnce(h.polled, c.fd);
    ActiveAt(h.conns, i);
    ActiveAt(u.conns, i);
    ReplacedWithout(h.conns, i, u.conns[i]);
    hide ActiveFds, PolledFds, Clients, Disable, FindKind, Inv;
  }

  lemma {:induction false} DeactivateKeeps(h: Handler, i: nat)
    requires Inv(h) && i < |h.conns| && h.conns[i].active
    requires h.conns[i].kind == CLIENT_CONNECT ==> i == FindKind(h.conns, CLIENT_CONNECT)
    ensures Inv(Deactivate(h, i))
  {
    var u := Deactivate(h, i);
    DeactivateFds(h, i);
    SameFirst(h.conns, u.conns, CLIENT_CONNECT);
    hide ActiveFds, PolledFds, Clients, Disable, FindKind;
  }

  lemma {:induction false} CheckActivateKeeps(h: Handler, i: nat, admitted: Admitted, activate: bool)
    requires Inv(h) && i < |h.conns|
    requires h.conns[i].kind == CLIENT_CONNECT ==> i == FindKind(h.conns, CLIENT_CONNECT)
    ensures Inv(CheckActivate(h, i, admitted, activate))
  {
    hide Inv, Activate, Deactivate;
    if h.conns[i].active {
      DeactivateKeeps(h, i);
    } else {
      ActivateKeeps(h, i);
    }
  }

  // ---- creating

  lemma {:induction false} AppendedKeeps(h: Handler, fd: int, kind: nat, mask: int)
    requires Inv(h) && fd >= 0 && FindConn(h.conns, fd) == |h.conns|
    ensures Inv(Appended(h, fd, kind, mask))
  {
    var c := Conn(fd, kind, false, mask);
    ActiveSplit(h.conns, [c]);
    ActiveOne(c);
    FirstAppended(h.conns, c);
    hide ActiveFds, PolledFds, Clients, FindKind;
  }

  lemma {:induction false} FirstIs(conns: seq<Conn>, kind: nat, k: nat)
    ensures k < |conns| && conns[k].kind == kind && (forall j :: 0 <= j < k ==> conns[j].kind != kind) ==> FindKind(conns, kind) == k
  {
  }

  lemma {:induction false} FirstAppended(conns: seq<Conn>, c: Conn)
    ensures FindKind(conns, CLIENT_CONNECT) < |conns| ==> FindKind(conns + [c], CLIENT_CONNECT) == FindKind(conns, CLIENT_CONNECT)
  {
    var r := conns + [c];
    assert forall j :: 0 <= j < |conns| ==> r[j] == conns[j];
    FirstIs(r, CLIENT_CONNECT, FindKind(conns, CLIENT_CONNECT));
  }

  /** A new connection is activated right away, as far as the filter admits it. */
  lemma {:induction false} CreateKeeps(h: Handler, fd: int, kind: nat, mask: int, admitted: Admitted)
    requires Inv(h)
    ensures Inv(Create(h, fd, kind, mask, admitted))
  {
    hide Inv, Activate;
    OpenAside(h, h.open + {fd});
    if fd >= 0 && FindConn(h.conns, fd) == |h.conns| {
      var o := Opened(h, fd);
      AppendedKeeps(o, fd, kind, mask);
      ActivateKeeps(Appended(o, fd, kind, mask), |h.conns|);
    }
  }

  /** It stands at the end of the list, and its descriptor at the end of the table if the filter admits it. */
  lemma {:induction false} CreateAppends(h: Handler, fd: int, kind: nat, mask: int, admitted: Admitted)
    requires fd >= 0 && FindConn(h.conns, fd) == |h.conns|
    ensures var u := Create(h, fd, kind, mask, admitted);
      && u.conns == h.conns + [Conn(fd, kind, admitted(kind), mask)]
      && u.polled == h.polled + (if admitted(kind) then [PollFd(fd, mask, 0)] else [])
      && u.clients == h.clients + (if kind == 2 || kind == 3 then 1 else 0)
      && u.open == h.open + {fd}
  {
    var conns := h.conns + [Conn(fd, kind, false, mask)];
    assert conns[|h.conns| := Conn(fd, kind, true, mask)] == h.conns + [Conn(fd, kind, true, mask)];
  }

  // ---- removing

  lemma {:induction false} WithoutDistinct(conns: seq<Conn>, i: nat)
    requires DistinctFds(conns) && FdsKnown(conns) && i < |conns| && conns[i].fd >= 0
    ensures DistinctFds(Without(conns, i)) && FdsKnown(Without(conns, i))
  {
    var r := Without(conns, i);
    assert forall j :: 0 <= j < |r| ==> r[j] == conns[if j < i then j else j + 1];
    var first := FindKind(conns, CLIENT_CONNECT);
    forall j | 0 <= j < |r| && r[j].fd < 0 ensures r[j].fd == -1 && j == FindKind(r, CLIENT_CONNECT) {
      var k := if j < i then j else j + 1;
      assert conns[k].fd == -1 && k == first;
      assert r[j].kind == CLIENT_CONNECT;
      assert forall m :: 0 <= m < j ==> r[m].kind != CLIENT_CONNECT;
    }
  }

  /** What is left when the connection at index i is deactivated and taken off the list. */
  lemma {:induction false} RemovedFds(h: Handler, i: nat)
    requires Inv(h) && i < |h.conns|
    ensures var u := if h.conns[i].active then Deactivate(h, i) else h;
      && Without(u.conns, i) == Without(h.conns, i)
      && PolledFds(u.polled) == ActiveFds(Without(h.conns, i))
      && u.clients == Clients(Without(h.conns, i)) + if IsClient(h.conns[i].kind) then 1 else 0
  {
    ActiveAt(h.conns, i);
    if h.conns[i].active {
      DeactivateFds(h, i);
      ActiveAt(Deactivate(h, i).conns, i);
    }
    hide ActiveFds, PolledFds, Clients, Disable, DistinctFds, FdsKnown, Without;
  }

  lemma {:induction false} UnregisterIs(h: Handler, fd: int, admitted: Admitted)
    requires FindConn(h.conns, fd) < |h.conns|
    ensures var i := FindConn(h.conns, fd); var u := if h.conns[i].active then Deactivate(h, i) else h;
      Unregister(h, fd, admitted) ==
        Handler(Without(u.conns, i), u.polled, OneLess(h.clients, h.conns[i].kind), h.open - {u.conns[i].fd})
  {
    hide FindConn, Disable, Without;
  }

  /** Whether or not it was active, without the connection the books are right; the counter was not 0. */
  lemma {:induction false} UnregisterKeeps(h: Handler, fd: int, admitted: Admitted)
    requires Inv(h) && fd >= 0
    ensures Inv(Unregister(h, fd, admitted))
    ensures FindConn(h.conns, fd) < |h.conns| && IsClient(h.conns[FindConn(h.conns, fd)].kind) ==> h.clients >= 1
  {
    var i := FindConn(h.conns, fd);
    if i < |h.conns| {
      WithoutDistinct(h.conns, i);
      RemovedFds(h, i);
      UnregisterIs(h, fd, admitted);
      hide ActiveFds, PolledFds, Clients, Deactivate, FindConn, DistinctFds, FdsKnown, Without, Unregister, IsClient;
    }
  }

  /** The connection goes, and its descriptor if it was polled; all others stay as they were, in order. */
  lemma {:induction false} UnregisterTakesOut(h: Handler, fd: int, admitted: Admitted)
    requires Inv(h) && FindConn(h.conns, fd) < |h.conns|
    ensures var i := FindConn(h.conns, fd); var u := Unregister(h, fd, admitted);
      && u.conns == Without(h.conns, i)
      && u.polled == (if h.conns[i].active then Disable(h.polled, fd) else h.polled)
      && (h.conns[i].active ==> |u.polled| == |h.polled| - 1)
      && u.clients == h.clients - (if h.conns[i].kind == 2 || h.conns[i].kind == 3 then 1 else 0)
      && u.open == h.open - {if h.conns[i].kind == 1 && h.conns[i].active then -1 else fd}
  {
    var i := FindConn(h.conns, fd);
    ActiveAt(h.conns, i);
    RemovedFds(h, i);
    UnregisterIs(h, fd, admitted);
    if h.conns[i].active {
      ActiveIn(h.conns, fd);
      PolledIn(h.polled, fd);
    }
    hide ActiveFds, PolledFds, Clients, DistinctFds, FdsKnown, Without, FindConn, FindPolled;
  }

  // ---- descriptors that exist

  /** A connection has no descriptor or an open one, and an active connection has one. */
  predicate LiveConn(open: set<int>, c: Conn) {
    (c.fd == -1 || c.fd in open) && (c.active ==> c.fd in open)
  }

  predicate Live(h: Handler) {
    -1 !in h.open && forall i :: 0 <= i < |h.conns| ==> LiveConn(h.open, h.conns[i])
  }

  predicate Sound(h: Handler) {
    Inv(h) && Live(h)
  }

  /** All but the connection at index i. */
  predicate OthersLive(h: Handler, i: nat) {
    -1 !in h.open && forall j :: 0 <= j < |h.conns| && j != i ==> LiveConn(h.open, h.conns[j])
  }

  /** What becomes of the connection itself. */
  function Checked(c: Conn, admitted: Admitted, activate: bool): Conn {
    if !admitted(c.kind) || !activate then
      if c.active then c.(active := false, fd := if c.kind == CLIENT_CONNECT then -1 else c.fd) else c
    else c.(active := true)
  }

  lemma {:induction false} CheckedLive(h: Handler, i: nat, admitted: Admitted, activate: bool)
    requires i < |h.conns| && OthersLive(h, i)
    ensures var u := CheckActivate(h, i, admitted, activate);
      && u.conns == h.conns[i := Checked(h.conns[i], admitted, activate)] && u.open == h.open
      && (Live(u) <==> LiveConn(h.open, Checked(h.conns[i], admitted, activate)))
  {
    hide Enable, Disable, LiveConn;
    var u := CheckActivate(h, i, admitted, activate);
    assert u.conns == h.conns[i := Checked(h.conns[i], admitted, activate)];
    assert forall j :: 0 <= j < |h.conns| && j != i ==> u.conns[j] == h.conns[j];
    if LiveConn(h.open, u.conns[i]) {
      forall j | 0 <= j < |u.conns| ensures LiveConn(u.open, u.conns[j]) {
      }
    }
  }

  lemma {:induction false} CreatedLive(h: Handler, fd: int, kind: nat, mask: int, admitted: Admitted)
    requires Live(h)
    ensures Live(Create(h, fd, kind, mask, admitted))
  {
    hide CheckActivate, FindConn;
    if fd >= 0 {
      CheckedLive(Appended(Opened(h, fd), fd, kind, mask), |h.conns|, admitted, true);
    }
  }

  lemma {:induction false} UnregisteredLive(h: Handler, fd: int, admitted: Admitted)
    requires Sound(h)
    ensures Live(Unregister(h, fd, admitted))
  {
    hide CheckActivate;
    var i := FindConn(h.conns, fd);
    if i < |h.conns| {
      var v := h.(clients := OneLess(h.clients, h.conns[i].kind));
      CheckedLive(v, i, admitted, false);
      var u := CheckActivate(v, i, admitted, false);
      var r := Without(u.conns, i);
      forall j | 0 <= j < |r| ensures LiveConn(u.open - {u.conns[i].fd}, r[j]) {
        var k := if j < i then j else j + 1;
        assert r[j] == h.conns[k] && k != i;
        assert u.conns[i].fd == -1 || u.conns[i].fd == h.conns[i].fd != h.conns[k].fd;
      }
    }
  }

  // ---- the filter

  lemma {:induction false} NewSocketKeeps(h: Handler, i: nat, fd: int)
    requires Inv(h) && i == FindKind(h.conns, CLIENT_CONNECT) < |h.conns|
    requires !h.conns[i].active && fd >= 0 && FindConn(h.conns, fd) == |h.conns|
    ensures Inv(WithFd(h, i, fd))
  {
    var u := WithFd(h, i, fd);
    ActiveAt(h.conns, i);
    ActiveAt(u.conns, i);
    ReplacedWithout(h.conns, i, u.conns[i]);
    SameFirst(h.conns, u.conns, CLIENT_CONNECT);
    hide ActiveFds, PolledFds, Clients, FindKind, FindConn;
  }

  /** A descriptor that the system hands out is nobody's. */
  lemma {:induction false} FreshIsUnknown(h: Handler, fd: int)
    requires Live(h) && fd >= 0 && fd !in h.open
    ensures FindConn(h.conns, fd) == |h.conns|
  {
    var i := FindConn(h.conns, fd);
    assert i < |h.conns| ==> LiveConn(h.open, h.conns[i]);
  }

  lemma {:induction false} ReadyKeeps(h: Handler, i: nat, fd: int, admitted: Admitted)
    requires Sound(h) && i == FindKind(h.conns, CLIENT_CONNECT) < |h.conns| && h.conns[i].fd == -1
    requires fd >= 0 && fd !in h.open
    ensures Sound(CheckActivate(Opened(WithFd(h, i, fd), fd), i, admitted, true))
  {
    var v := WithFd(h, i, fd);
    var u := Opened(v, fd);
    FreshIsUnknown(h, fd);
    assert LiveConn(h.open, h.conns[i]);
    NewSocketKeeps(h, i, fd);
    OpenAside(v, u.open);
    SameFirst(h.conns, u.conns, CLIENT_CONNECT);
    CheckActivateKeeps(u, i, admitted, true);
    CheckedLive(u, i, admitted, true);
    hide Inv, FindConn, FindKind, CheckActivate;
  }

  /** The filter does not admit clients, which closes the listening socket, but the listening connection keeps
      the descriptor or is activated without one: it forgets a descriptor only when it is deactivated. */
  predicate DeadListener(h: Handler, admitted: Admitted) {
    var i := FindKind(h.conns, CLIENT_CONNECT);
    && i < |h.conns| && !admitted(CLIENT_MSG_TCP)
    && (admitted(CLIENT_CONNECT) || (!h.conns[i].active && h.conns[i].fd != -1))
  }

  lemma {:induction false} ClosedOthersLive(h: Handler, i: nat)
    requires Live(h) && DistinctFds(h.conns) && i < |h.conns|
    ensures OthersLive(Closed(h, h.conns[i].fd), i)
  {
    forall j | 0 <= j < |h.conns| && j != i ensures LiveConn(h.open - {h.conns[i].fd}, h.conns[j]) {
      assert LiveConn(h.open, h.conns[j]) && h.conns[i].fd != h.conns[j].fd;
    }
  }

  lemma {:induction false} ClosedIff(h: Handler, i: nat, admitted: Admitted)
    requires Sound(h) && i == FindKind(h.conns, CLIENT_CONNECT) < |h.conns| && !admitted(CLIENT_MSG_TCP)
    ensures Sound(CheckActivate(Closed(h, h.conns[i].fd), i, admitted, true)) <==> !DeadListener(h, admitted)
  {
    var c, u := h.conns[i], Closed(h, h.conns[i].fd);
    OpenAside(h, u.open);
    CheckActivateKeeps(u, i, admitted, true);
    ClosedOthersLive(h, i);
    CheckedLive(u, i, admitted, true);
    assert LiveConn(h.open, c);
    hide Inv, FindKind, CheckActivate, DistinctFds;
  }

  /** A change of the filter keeps the books right, polls open descriptors only and leaves no connection with a
      closed one, if and only if it does not close the socket of a listening connection that goes on using it. */
  lemma {:induction false} FilterChangedIff(h: Handler, fd: int, mask: int, admitted: Admitted)
    requires Sound(h) && (fd >= 0 ==> fd !in h.open)
    ensures Sound(FilterChanged(h, fd, mask, admitted)) <==> !DeadListener(h, admitted)
  {
    var i := FindKind(h.conns, CLIENT_CONNECT);
    if i == |h.conns| {
      CreateKeeps(h, fd, CLIENT_CONNECT, mask, admitted);
      CreatedLive(h, fd, CLIENT_CONNECT, mask, admitted);
      hide Inv, Create, FindKind;
    } else if !admitted(CLIENT_MSG_TCP) {
      ClosedIff(h, i, admitted);
      hide Sound, CheckActivate, FindKind;
    } else if h.conns[i].fd == -1 {
      if fd >= 0 {
        ReadyKeeps(h, i, fd, admitted);
      }
      hide Sound, CheckActivate, FindKind;
    } else {
      CheckActivateKeeps(h, i, admitted, true);
      assert LiveConn(h.open, h.conns[i]);
      CheckedLive(h, i, admitted, true);
      hide Inv, CheckActivate, FindKind;
    }
  }

  /** No connection listens yet: one is created if the filter admits it and a socket could be opened. */
  lemma {:induction false} FirstListener(h: Handler, fd: int, mask: int, admitted: Admitted)
    requires forall i :: 0 <= i < |h.conns| ==> h.conns[i].kind != 1 && h.conns[i].fd != fd
    ensures var u := FilterChanged(h, fd, mask, admitted);
      if admitted(1) && fd >= 0 then
        u == Handler(h.conns + [Conn(fd, 1, true, mask)], h.polled + [PollFd(fd, mask, 0)], h.clients, h.open + {fd})
      else
        u == h
  {
    if admitted(1) && fd >= 0 {
      CreateAppends(h, fd, 1, mask, admitted);
    }
    hide Create;
  }

  /** The listening connection lost its socket, clients are admitted and a socket could be opened: it has the new
      one, which is polled, if the filter admits listening and the connection was not active. */
  lemma {:induction false} SocketRegained(h: Handler, i: nat, fd: int, mask: int, admitted: Admitted)
    requires i < |h.conns| && h.conns[i].kind == 1 && forall j :: 0 <= j < i ==> h.conns[j].kind != 1
    requires h.conns[i].fd == -1 && !h.conns[i].active && admitted(2) && fd >= 0
    ensures var u := FilterChanged(h, fd, mask, admitted); var c := h.conns[i];
      && u.conns == h.conns[i := Conn(fd, 1, admitted(1), c.mask)]
      && u.polled == h.polled + (if admitted(1) then [PollFd(fd, c.mask, 0)] else [])
      && u.clients == h.clients && u.open == h.open + {fd}
  {
    FirstIs(h.conns, 1, i);
    hide FindKind;
  }

  /** A listening connection that has its socket keeps it while clients are admitted: it is polled from now on, or
      no longer, as the filter says. */
  lemma {:induction false} SocketKept(h: Handler, i: nat, fd: int, mask: int, admitted: Admitted)
    requires i < |h.conns| && h.conns[i].kind == 1 && forall j :: 0 <= j < i ==> h.conns[j].kind != 1
    requires h.conns[i].fd != -1 && admitted(2)
    ensures var u := FilterChanged(h, fd, mask, admitted); var c := h.conns[i];
      if c.active == admitted(1) then u == h
      else if admitted(1) then
        u == h.(conns := h.conns[i := c.(active := true)], polled := h.polled + [PollFd(c.fd, c.mask, 0)])
      else
        u == h.(conns := h.conns[i := c.(active := false, fd := -1)], polled := Disable(h.polled, c.fd))
  {
    FirstIs(h.conns, 1, i);
    hide FindKind, Disable;
  }

  /** The filter admits neither clients nor listening: the socket of an active listening connection is closed and
      no longer polled. */
  lemma {:induction false} SocketClosed(h: Handler, i: nat, fd: int, mask: int, admitted: Admitted)
    requires i < |h.conns| && h.conns[i].kind == 1 && forall j :: 0 <= j < i ==> h.conns[j].kind != 1
    requires h.conns[i].active && !admitted(1) && !admitted(2)
    ensures var u := FilterChanged(h, fd, mask, admitted); var c := h.conns[i];
      u == Handler(h.conns[i := Conn(-1, 1, false, c.mask)], Disable(h.polled, c.fd), h.clients, h.open - {c.fd})
  {
    FirstIs(h.conns, 1, i);
    hide FindKind, Disable;
  }

  /** The listening connection is active, the filter goes on admitting it but no clients: its socket is closed
      and still polled, and a client that is given the same descriptor is taken for known. */
  lemma {:induction false} ListenerClosed(fd: int, mask: int, m: int, admitted: Admitted)
    requires fd >= 0 && admitted(CLIENT_CONNECT) && !admitted(CLIENT_MSG_TCP)
    ensures var h := Handler([Conn(fd, CLIENT_CONNECT, true, mask)], [PollFd(fd, mask, 0)], 0, {fd});
      var u := FilterChanged(h, -1, mask, admitted);
      && Sound(h)
      && u.conns == h.conns && u.polled == h.polled && u.open == {}
      && Create(u, fd, CLIENT_MSG_TCP, m, admitted) == Opened(u, fd)
  {
    var c := Conn(fd, CLIENT_CONNECT, true, mask);
    var h := Handler([c], [PollFd(fd, mask, 0)], 0, {fd});
    ActiveOne(c);
    assert PolledFds(h.polled[1..]) == multiset{};
    assert FindKind(h.conns, CLIENT_CONNECT) == 0 && FindConn(h.conns, fd) == 0;
  }

  /** When clients are admitted while the listening connection is not, it gets a socket; when they are not
      admitted any more, the socket is closed, and when both are admitted the closed descriptor is polled. */
  lemma {:induction false} ListenerReopened(fd: int, mask: int)
    requires fd >= 0
    ensures var h := Handler([Conn(-1, CLIENT_CONNECT, false, mask)], [], 0, {});
      var onlyClients: Admitted := k => k == CLIENT_MSG_TCP;
      var nothing: Admitted := k => false;
      var everything: Admitted := k => true;
      var a := FilterChanged(h, fd, mask, onlyClients);
      var b := FilterChanged(a, -1, mask, nothing);
      var u := FilterChanged(b, -1, mask, everything);
      && Sound(h) && a.open == {fd}
      && u.conns == [Conn(fd, CLIENT_CONNECT, true, mask)] && u.polled == [PollFd(fd, mask, 0)] && u.open == {}
  {
    var c := Conn(-1, CLIENT_CONNECT, false, mask);
    var h := Handler([c], [], 0, {});
    ActiveOne(c);
    assert FindKind(h.conns, CLIENT_CONNECT) == 0;
    var onlyClients: Admitted := k => k == CLIENT_MSG_TCP;
    var nothing: Admitted := k => false;
    var a := FilterChanged(h, fd, mask, onlyClients);
    assert a.conns == [c.(fd := fd)] && a.polled == [] && a.open == {fd};
    assert FindKind(a.conns, CLIENT_CONNECT) == 0;
    var b := FilterChanged(a, -1, mask, nothing);
    assert b.conns == a.conns && b.polled == [] && b.open == {};
  }

  /** A listening connection without a socket is activated when the filter admits it but no clients. When
      clients are admitted again it gets a socket, but as it counts as active already, the socket is not
      polled, while no descriptor still is. */
  lemma {:induction false} ListenerLost(fd: int, mask: int)
    requires fd >= 0
    ensures var h := Handler([Conn(-1, CLIENT_CONNECT, false, mask)], [], 0, {});
      var onlyListener: Admitted := k => k == CLIENT_CONNECT;
      var everything: Admitted := k => true;
      var u := FilterChanged(FilterChanged(h, -1, mask, onlyListener), fd, mask, everything);
      && Sound(h)
      && u.conns == [Conn(fd, CLIENT_CONNECT, true, mask)] && u.polled == [PollFd(-1, mask, 0)] && u.open == {fd}
  {
    var c := Conn(-1, CLIENT_CONNECT, false, mask);
    var h := Handler([c], [], 0, {});
    ActiveOne(c);
    assert FindKind(h.conns, CLIENT_CONNECT) == 0;
    var onlyListener: Admitted := k => k == CLIENT_CONNECT;
    var v := FilterChanged(h, -1, mask, onlyListener);
    assert v.conns == [c.(active := true)] && v.polled == [PollFd(-1, mask, 0)] && v.open == {};
    assert FindKind(v.conns, CLIENT_CONNECT) == 0;
  }

  // ---- runs

  datatype Event =
    | Created(fd: int, kind: nat, mask: int, admitted: Admitted)
    | Unregistered(fd: int, admitted: Admitted)
    | Filtered(fd: int, mask: int, admitted: Admitted)     // fd: the socket that was opened, or negative

  function Step(h: Handler, ev: Event): Handler {
    match ev
    case Created(fd, kind, mask, admitted) => Create(h, fd, kind, mask, admitted)
    case Unregistered(fd, admitted) => Unregister(h, fd, admitted)
    case Filtered(fd, mask, admitted) => FilterChanged(h, fd, mask, admitted)
  }

  /** The system opens sockets with unused descriptors; nothing is unregistered that is none. */
  predicate EventOk(h: Handler, ev: Event) {
    match ev
    case Created(fd, kind, mask, admitted) => true
    case Unregistered(fd, admitted) => fd >= 0
    case Filtered(fd, mask, admitted) => (fd >= 0 ==> fd !in h.open) && !DeadListener(h, admitted)
  }

  function Run(h: Handler, evs: seq<Event>): Handler
    decreases |evs|
  {
    if evs == [] then h else Run(Step(h, evs[0]), evs[1..])
  }

  predicate EventsOk(h: Handler, evs: seq<Event>)
    decreases |evs|
  {
    evs == [] || (EventOk(h, evs[0]) && EventsOk(Step(h, evs[0]), evs[1..]))
  }

  lemma {:induction false} StepKeeps(h: Handler, ev: Event)
    requires Sound(h) && EventOk(h, ev)
    ensures Sound(Step(h, ev))
  {
    hide Inv, Live, Create, Unregister, FilterChanged, DeadListener;
    match ev
    case Created(fd, kind, mask, admitted) =>
      CreateKeeps(h, fd, kind, mask, admitted);
      CreatedLive(h, fd, kind, mask, admitted);
    case Unregistered(fd, admitted) =>
      UnregisterKeeps(h, fd, admitted);
      UnregisteredLive(h, fd, admitted);
    case Filtered(fd, mask, admitted) =>
      FilterChangedIff(h, fd, mask, admitted);
  }

  lemma {:induction false} RunKeeps(h: Handler, evs: seq<Event>)
    requires Sound(h) && EventsOk(h, evs)
    ensures Sound(Run(h, evs))
    decreases |evs|
  {
    hide Sound, EventOk, Step;
    if evs != [] {
      StepKeeps(h, evs[0]);
      RunKeeps(Step(h, evs[0]), evs[1..]);
    }
  }

  /** Each descriptor is polled once. */
  predicate PolledOnce(polled: seq<PollFd>) {
    forall i, j :: 0 <= i < j < |polled| ==> polled[i].fd != polled[j].fd
  }

  lemma {:induction false} AtMostOnce(conns: seq<Conn>, fd: int)
    requires DistinctFds(conns)
    ensures ActiveFds(conns)[fd] <= 1
  {
    if conns != [] {
      AtMostOnce(conns[1..], fd);
      ActiveIn(conns[1..], fd);
      assert forall i :: 0 <= i < |conns[1..]| ==> conns[1..][i] == conns[i + 1];
    }
  }

  lemma {:induction false} TwicePolled(polled: seq<PollFd>, i: nat, j: nat)
    requires i < j < |polled| && polled[i].fd == polled[j].fd
    ensures PolledFds(polled)[polled[i].fd] >= 2
  {
    PolledAt(polled, i);
    PolledAt(Without(polled, i), j - 1);
    hide PolledFds;
  }

  predicate IsPolled(polled: seq<PollFd>, fd: int) {
    exists j :: 0 <= j < |polled| && polled[j].fd == fd
  }

  predicate IsActive(conns: seq<Conn>, fd: int) {
    exists i :: 0 <= i < |conns| && conns[i].active && conns[i].fd == fd
  }

  lemma {:induction false} InvPollsOnce(h: Handler)
    requires Inv(h)
    ensures PolledOnce(h.polled)
    ensures forall fd :: IsPolled(h.polled, fd) <==> IsActive(h.conns, fd)
  {
    forall i, j | 0 <= i < j < |h.polled| ensures h.polled[i].fd != h.polled[j].fd {
      if h.polled[i].fd == h.polled[j].fd {
        TwicePolled(h.polled, i, j);
        AtMostOnce(h.conns, h.polled[i].fd);
        assert false;
      }
    }
    forall fd ensures IsPolled(h.polled, fd) <==> IsActive(h.conns, fd) {
      PolledIn(h.polled, fd);
      ActiveIn(h.conns, fd);
    }
  }

  lemma {:induction false} ActiveIsOpen(h: Handler, fd: int)
    requires Live(h) && IsActive(h.conns, fd)
    ensures fd in h.open
  {
    var i :| 0 <= i < |h.conns| && h.conns[i].active && h.conns[i].fd == fd;
    assert LiveConn(h.open, h.conns[i]);
  }

  /** Over every run from an empty handler: each polled descriptor is open, is polled once and is that of an
      active connection, each active connection's descriptor is polled, no connection has a closed descriptor,
      and the counter is the number of client connections. */
  lemma {:induction false} TableMatchesConnections(evs: seq<Event>)
    requires EventsOk(Handler([], [], 0, {}), evs)
    ensures var h := Run(Handler([], [], 0, {}), evs);
      && PolledOnce(h.polled)
      && (forall fd :: IsPolled(h.polled, fd) <==> IsActive(h.conns, fd))
      && (forall fd :: IsPolled(h.polled, fd) ==> fd in h.open)
      && (forall i :: 0 <= i < |h.conns| ==> LiveConn(h.open, h.conns[i]))
      && h.clients == Clients(h.conns)
  {
    var h := Handler([], [], 0, {});
    assert Sound(h);
    RunKeeps(h, evs);
    var u := Run(h, evs);
    InvPollsOnce(u);
    forall fd | IsPolled(u.polled, fd) ensures fd in u.open {
      ActiveIsOpen(u, fd);
    }
    hide Run, EventsOk, Clients, PolledOnce, IsPolled, IsActive, LiveConn;
  }
}

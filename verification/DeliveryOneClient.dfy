/** One TCP client at a time: every message is kept exactly once, in order, or counted. */
module DeliveryOneClient {
  import opened Delivery
  import opened DeliveryInvariant

  function Messages(wire: seq<Sent>): (r: seq<Msg>)
    ensures |r| == |wire|
  {
    seq(|wire|, i requires 0 <= i < |wire| => wire[i].msg)
  }

  /** What was sent completely, followed by what is still buffered. */
  function Placed(s: State): seq<Msg> {
    Messages(s.wire) + s.ring
  }

  /** The application messages of a sequence, in order. */
  function AppIds(ms: seq<Msg>): seq<nat> {
    if ms == [] then [] else (if ms[0].App? then [ms[0].id] else []) + AppIds(ms[1..])
  }

  /** The counter values carried by the daemon's overflow reports. */
  function Reported(ms: seq<Msg>): multiset<nat> {
    if ms == [] then multiset{} else (if ms[0].Report? then multiset{ms[0].count} else multiset{}) + Reported(ms[1..])
  }

  predicate NoSerial(cs: seq<Conn>) {
    forall i :: 0 <= i < |cs| ==> cs[i].kind != Serial
  }

  /** The premises: TCP is allowed, there is no serial device, at most one client is connected. */
  predicate Single(w: World, s: State) {
    && w.tcp && !w.serialDevice
    && NoSerial(s.conns)
    && s.clients == ClientCount(s.conns) <= 1
    && s.mode != Init
  }

  predicate One(w: World, s: State) {
    Single(w, s) && Inv(w, s)
  }

  /** Every counter value that was reset stands in a report of its own that was sent or is buffered. */
  predicate Covered(s: State) {
    multiset(s.cleared) <= Reported(Placed(s))
  }

  lemma {:induction false} AppIdsSplit(a: seq<Msg>, b: seq<Msg>)
    ensures AppIds(a + b) == AppIds(a) + AppIds(b)
  {
    if a == [] {
      assert a + b == b;
    } else {
      var first := if a[0].App? then [a[0].id] else [];
      assert (a + b)[1..] == a[1..] + b;
      calc {
        AppIds(a + b);
        first + AppIds(a[1..] + b);
        { AppIdsSplit(a[1..], b); }
        first + (AppIds(a[1..]) + AppIds(b));
        (first + AppIds(a[1..])) + AppIds(b);
      }
    }
  }

  lemma {:induction false} ReportedSplit(a: seq<Msg>, b: seq<Msg>)
    ensures Reported(a + b) == Reported(a) + Reported(b)
  {
    if a == [] {
      assert a + b == b;
    } else {
      ReportedSplit(a[1..], b);
      assert (a + b)[1..] == a[1..] + b;
    }
  }

  /** t extends what s placed by `extra`. */
  predicate Extends(s: State, t: State, extra: seq<Msg>) {
    Placed(t) == Placed(s) + extra
  }

  predicate Quiet(ms: seq<Msg>) {
    AppIds(ms) == [] && Reported(ms) == multiset{}
  }

  lemma {:induction false} StoreExtends(w: World, s: State, m: Msg)
    requires Stores(s.mode)
    ensures var o := Store(w, s, m); Extends(s, o.st, if o.ret == Ok then [m] else [])
  {
  }

  lemma {:induction false} MessagesAppend(wire: seq<Sent>, x: Sent)
    ensures Messages(wire + [x]) == Messages(wire) + [x.msg]
  {
  }

  /** Only the connections from i on matter, and none of them takes messages. */
  lemma {:induction false} FanOutNobody(w: World, s: State, m: Msg, i: nat, sent: bool)
    requires forall j :: i <= j < |s.conns| ==> !Eligible(w, s.conns[j])
    ensures FanOut(w, s, m, i, sent) == Fan(s, sent)
    decreases |s.conns| - i
  {
    if i < |s.conns| {
      FanOutNobody(w, s, m, i + 1, sent);
    }
  }

  /** The single client is the one at index p. */
  lemma {:induction false} ClientIndex(cs: seq<Conn>) returns (p: nat)
    requires NoSerial(cs) && ClientCount(cs) == 1
    ensures p < |cs| && cs[p].kind == Tcp
    ensures forall j :: 0 <= j < |cs| && j != p ==> cs[j].kind == Other
  {
    if cs[0].kind != Other {
      p := 0;
      forall j | 1 <= j < |cs| ensures cs[j].kind == Other {
        if cs[j].kind != Other {
          CountPositive(cs[1..], j - 1);
        }
      }
    } else {
      var q := ClientIndex(cs[1..]);
      p := q + 1;
      assert forall j :: 1 <= j < |cs| ==> cs[j] == cs[1..][j - 1];
    }
  }

  /** A fan-out to the single client: it takes the message or is closed. */
  lemma {:induction false} FanOutSingle(w: World, s: State, m: Msg, i: nat, p: nat)
    requires Single(w, s) && DistinctFds(s.conns) && i <= p < |s.conns| && s.conns[p].kind == Tcp
    requires s.clients == 1
    requires forall j :: 0 <= j < |s.conns| && j != p ==> s.conns[j].kind == Other
    ensures var t := s.(now := s.now + 1); var fd := s.conns[p].fd;
      FanOut(w, s, m, i, false) ==
      if w.sendOk(s.now, fd, m) then Fan(t.(wire := t.wire + [Sent(fd, m)]), true) else Fan(Close(w, t, fd), false)
    decreases p - i
  {
    hide Close, ClientSend;
    if i < p {
      FanOutSingle(w, s, m, i + 1, p);
    } else {
      var t := s.(now := s.now + 1);
      var fd := s.conns[p].fd;
      if w.sendOk(s.now, fd, m) {
        FanOutNobody(w, t.(wire := t.wire + [Sent(fd, m)]), m, i + 1, true);
      } else {
        CloseSingle(w, t, p);
        FanOutNobody(w, Close(w, t, fd), m, i + 1, false);
      }
    }
  }

  /** Only news of the daemon itself were stored on the way from s to t, or counted once there was no room. */
  predicate OnlyNews(s: State, t: State) {
    && SameClients(s, t) && t.guard == s.guard && t.cleared == s.cleared && t.wire == s.wire
    && s.ring <= t.ring && Quiet(t.ring[|s.ring|..])
    && t.overflow - s.overflow == t.lost - s.lost
    && ((t.mode == s.mode && t.lost == s.lost) || (t.mode == BufferFull && t.lost > s.lost))
  }

  lemma {:induction false} StoreNews(w: World, s: State, m: Msg)
    requires Stores(s.mode) && !m.App? && !m.Report?
    ensures OnlyNews(s, Store(w, s, m).st)
  {
    var t := Store(w, s, m).st;
    assert t.ring[|s.ring|..] == [] || t.ring[|s.ring|..] == [m];
  }

  lemma {:induction false} OnlyNewsTrans(s: State, t: State, u: State)
    requires OnlyNews(s, t) && OnlyNews(t, u)
    ensures OnlyNews(s, u)
  {
    assert u.ring[|s.ring|..] == t.ring[|s.ring|..] + u.ring[|t.ring|..];
    AppIdsSplit(t.ring[|s.ring|..], u.ring[|t.ring|..]);
    ReportedSplit(t.ring[|s.ring|..], u.ring[|t.ring|..]);
  }

  /** Closing the single client leaves no client; the daemon buffers, starting with the news of the close. */
  lemma {:induction false} CloseSingle(w: World, s: State, p: nat)
    requires Single(w, s) && DistinctFds(s.conns) && p < |s.conns| && s.conns[p].kind == Tcp
    ensures var v := s.(conns := Without(s.conns, p), clients := 0, mode := Buffer);
      OnlyNews(v, Close(w, s, s.conns[p].fd)) && ClientCount(v.conns) == 0 && NoSerial(v.conns)
  {
    var fd := s.conns[p].fd;
    CountWithout(s.conns, p);
    CountPositive(s.conns, p);
    assert Find(s.conns, fd) == p;
    var v := Unregister(s, fd).(mode := Buffer);
    SendWhileStoring(w, v, Info(false));
    StoreNews(w, v, Info(false));
    var t := Store(w, v, Info(false)).st;
    SendWhileStoring(w, t, Closed(fd, t.clients));
    StoreNews(w, t, Closed(fd, t.clients));
    OnlyNewsTrans(v, t, Close(w, s, fd));
  }

  /** No report disappears and no discarded message is forgotten. */
  predicate Grows(s: State, t: State) {
    && Reported(Placed(s)) <= Reported(Placed(t))
    && s.lost <= t.lost
    && (Covered(s) ==> Covered(t))
  }

  lemma {:induction false} PrefixReported(a: seq<Msg>, b: seq<Msg>)
    requires a <= b
    ensures Reported(a) <= Reported(b)
  {
    assert b == a + b[|a|..];
    ReportedSplit(a, b[|a|..]);
  }

  lemma {:induction false} GrowsIfNothingCleared(s: State, t: State)
    requires Placed(s) <= Placed(t) && s.lost <= t.lost && s.cleared == t.cleared
    ensures Grows(s, t)
  {
    PrefixReported(Placed(s), Placed(t));
  }

  /** The greeting overtakes the buffered history, which changes neither projection. */
  lemma {:induction false} GreetingPlaces(s: State, u: State, x: Sent)
    requires x.msg.Info? && u.ring == s.ring && u.wire == s.wire + [x]
    ensures AppIds(Placed(u)) == AppIds(Placed(s)) && Reported(Placed(u)) == Reported(Placed(s))
  {
    MessagesAppend(s.wire, x);
    var a := Messages(s.wire);
    assert Placed(u) == (a + [x.msg]) + s.ring;
    AppIdsSplit(a, s.ring);
    AppIdsSplit(a, [x.msg]);
    AppIdsSplit(a + [x.msg], s.ring);
    ReportedSplit(a, s.ring);
    ReportedSplit(a, [x.msg]);
    ReportedSplit(a + [x.msg], s.ring);
  }

  lemma {:induction false} OnlyNewsPlaces(s: State, t: State)
    requires OnlyNews(s, t)
    ensures Placed(s) <= Placed(t)
    ensures AppIds(Placed(t)) == AppIds(Placed(s)) && Reported(Placed(t)) == Reported(Placed(s))
  {
    var extra := t.ring[|s.ring|..];
    assert Placed(t) == Placed(s) + extra;
    AppIdsSplit(Placed(s), extra);
    ReportedSplit(Placed(s), extra);
  }

  /** The result of one send to all clients. */
  predicate SendResult(w: World, s: State, m: Msg, o: Outcome) {
    && Single(w, o.st)
    && o.ret != SendFailed
    && Grows(s, o.st)
    && AppIds(Placed(o.st)) == AppIds(Placed(s)) + (if o.ret == Ok then AppIds([m]) else [])
    && (o.ret == Full ==> o.st.lost > s.lost)
    && (s.guard >= 1 ==> o.st.cleared == s.cleared)
    && (s.guard >= 1 && o.ret == Ok ==>
          o.st.overflow == s.overflow && Reported(Placed(o.st)) == Reported(Placed(s)) + Reported([m]))
  }

  lemma {:induction false} SendStored(w: World, s: State, m: Msg)
    requires Single(w, s) && Stores(s.mode)
    ensures SendResult(w, s, m, Store(w, s, m))
  {
    var o := Store(w, s, m);
    StoreExtends(w, s, m);
    AppIdsSplit(Placed(s), if o.ret == Ok then [m] else []);
    ReportedSplit(Placed(s), if o.ret == Ok then [m] else []);
    GrowsIfNothingCleared(s, o.st);
  }

  /** The client took the message. */
  lemma {:induction false} SendTaken(w: World, s: State, m: Msg, t: State, x: Sent)
    requires Single(w, s) && s.ring == [] && x.msg == m
    requires t == s.(now := s.now + 1, wire := s.wire + [x])
    ensures SendResult(w, s, m, Outcome(t, Ok))
  {
    MessagesAppend(s.wire, x);
    assert Placed(t) == Placed(s) + [m];
    AppIdsSplit(Placed(s), [m]);
    ReportedSplit(Placed(s), [m]);
    GrowsIfNothingCleared(s, t);
  }

  /** The client was lost: the message follows the news of the close into the buffer. */
  lemma {:induction false} SendLost(w: World, s: State, m: Msg, p: nat)
    requires One(w, s) && p < |s.conns| && s.conns[p].kind == Tcp
    ensures SendResult(w, s, m, Store(w, Close(w, s, s.conns[p].fd), m))
  {
    CloseSingle(w, s, p);
    var v := s.(conns := Without(s.conns, p), clients := 0, mode := Buffer);
    var t := Close(w, s, s.conns[p].fd);
    OnlyNewsPlaces(v, t);
    assert Placed(v) == Placed(s);
    SendStored(w, t, m);
    GrowsIfNothingCleared(s, t);
  }

  /** Resetting the counter after its value was placed in a report. */
  lemma {:induction false} ClearOne(w: World, s: State, o: Outcome, guard: nat)
    requires SendResult(w, s, Report(s.overflow), o) && o.ret == Ok && s.guard >= 1
    ensures var r := o.st.(overflow := 0, cleared := o.st.cleared + [o.st.overflow], guard := guard);
      Single(w, r) && Grows(s, r) && AppIds(Placed(r)) == AppIds(Placed(s))
  {
    var r := o.st.(overflow := 0, cleared := o.st.cleared + [o.st.overflow], guard := guard);
    assert Placed(r) == Placed(o.st);
    assert AppIds([Report(s.overflow)]) == [];
    assert Reported([Report(s.overflow)]) == multiset{s.overflow};
    assert multiset(r.cleared) == multiset(s.cleared) + multiset{s.overflow};
  }

  /** One send to all clients, whatever the environment does: the message is placed at the end if the
      daemon answers OK and counted as lost if it answers that the buffer is full. */
  lemma {:induction false} SendOne(w: World, s: State, m: Msg)
    requires One(w, s)
    ensures SendResult(w, s, m, ClientSend(w, s, false, m))
    decreases GuardOpen(s), 1
  {
    if Stores(s.mode) {
      SendWhileStoring(w, s, m);
      SendStored(w, s, m);
    } else {
      var p := ClientIndex(s.conns);
      var fd := s.conns[p].fd;
      FanOutSingle(w, s, m, 0, p);
      if w.sendOk(s.now, fd, m) {
        var t := s.(now := s.now + 1, wire := s.wire + [Sent(fd, m)]);
        SendTaken(w, s, m, t, Sent(fd, m));
        SettleOne(w, t);
      } else {
        SendLost(w, s.(now := s.now + 1), m, p);
        CloseSingle(w, s.(now := s.now + 1), p);
      }
    }
  }

  /** The overflow report. The counter is reset only to the value that the placed report carries. */
  lemma {:induction false} SettleOne(w: World, s: State)
    requires One(w, s)
    ensures var r := Settle(w, s); Single(w, r) && Grows(s, r) && AppIds(Placed(r)) == AppIds(Placed(s))
    ensures s.guard >= 1 ==> Settle(w, s) == s
    decreases GuardOpen(s), 0
  {
    if s.overflow > 0 && s.clients > 0 && s.guard == 0 {
      var t := s.(guard := 1);
      assert Placed(t) == Placed(s);
      SendOne(w, t, Report(s.overflow));
      var o := ClientSend(w, t, false, Report(s.overflow));
      if o.ret == Ok {
        ClearOne(w, t, o, o.st.guard - 1);
      }
    }
  }

  /** t places what s placed, plus messages that are not application messages. */
  predicate SameApps(s: State, t: State) {
    Grows(s, t) && AppIds(Placed(t)) == AppIds(Placed(s))
  }

  lemma {:induction false} GrowsTrans(s: State, t: State, u: State)
    requires SameApps(s, t) && SameApps(t, u)
    ensures SameApps(s, u)
  {
  }

  /** The drained block leaves the buffer and stands at the end of what was sent. */
  function Drained(s: State, r: State): State
    requires r.ring != []
  {
    r.(ring := r.ring[1..], mode := SendBuffer)
  }

  lemma {:induction false} MoveHead(s: State, t: State, x: Sent)
    requires s.ring != [] && x.msg == s.ring[0]
    requires t.wire == s.wire + [x] && s.ring <= t.ring
    ensures Placed(Drained(s, t)) == Placed(s) + t.ring[|s.ring|..]
  {
    MessagesAppend(s.wire, x);
    assert t.ring == [s.ring[0]] + s.ring[1..] + t.ring[|s.ring|..];
    assert s.ring == [s.ring[0]] + s.ring[1..];
  }

  /** The oldest block was sent and a report was stored behind the others. */
  lemma {:induction false} SentAndReported(s: State, q: State, x: Sent)
    requires s.ring != [] && x.msg == s.ring[0]
    requires q.wire == s.wire + [x] && q.ring == s.ring + [Report(s.overflow)] && q.cleared == s.cleared + [s.overflow]
    requires s.lost <= q.lost
    ensures SameApps(s, Drained(s, q))
  {
    assert q.ring[|s.ring|..] == [Report(s.overflow)];
    MoveHead(s, q, x);
    AppIdsSplit(Placed(s), [Report(s.overflow)]);
    ReportedSplit(Placed(s), [Report(s.overflow)]);
    assert Reported([Report(s.overflow)]) == multiset{s.overflow};
    assert multiset(q.cleared) == multiset(s.cleared) + multiset{s.overflow};
  }

  /** The oldest block was sent and nothing was stored. */
  lemma {:induction false} SentOnly(s: State, q: State, x: Sent)
    requires s.ring != [] && x.msg == s.ring[0]
    requires q.wire == s.wire + [x] && q.ring == s.ring && q.cleared == s.cleared
    requires s.lost <= q.lost
    ensures SameApps(s, Drained(s, q))
  {
    MoveHead(s, q, x);
    assert Placed(Drained(s, q)) == Placed(s);
    GrowsIfNothingCleared(s, Drained(s, q));
  }

  /** The client took the oldest block; a due report was stored or is not attempted again. */
  lemma {:induction false} ForcedTaken(w: World, s: State, t: State, x: Sent)
    requires Single(w, s) && Stores(s.mode) && s.clients == 1 && s.ring != [] && x.msg == s.ring[0]
    requires t == s.(now := s.now + 1, wire := s.wire + [x])
    ensures s.ring <= Settle(w, t).ring
    ensures var r := Drained(s, Settle(w, t));
      Single(w, r) && r.clients == 1 && SameApps(s, r) && ReportDue(r) == 0
  {
    hide SameApps, Placed;
    var q := Settle(w, t);
    if t.overflow > 0 && t.guard == 0 {
      var g := t.(guard := 1);
      SendWhileStoring(w, g, Report(t.overflow));
      StoreKeeps(w, g, Report(t.overflow));
      if Store(w, g, Report(t.overflow)).ret == Ok {
        SentAndReported(s, q, x);
      } else {
        SentOnly(s, q, x);
      }
    } else {
      SentOnly(s, q, x);
    }
  }

  /** One round of the drain loop. */
  lemma {:induction false} ForcedOne(w: World, s: State)
    requires One(w, s) && Stores(s.mode) && s.ring != []
    ensures var o := ClientSend(w, s, true, s.ring[0]);
      if o.ret == Ok then
        var r := Drained(s, o.st); Single(w, r) && r.clients == 1 && SameApps(s, r) && ReportDue(r) == 0
      else
        Single(w, o.st) && SameApps(s, o.st)
  {
    var m := s.ring[0];
    if s.clients == 0 {
      forall j | 0 <= j < |s.conns| ensures !Eligible(w, s.conns[j]) {
        if s.conns[j].kind != Other {
          CountPositive(s.conns, j);
        }
      }
      FanOutNobody(w, s, m, 0, false);
    } else {
      var p := ClientIndex(s.conns);
      var fd := s.conns[p].fd;
      FanOutSingle(w, s, m, 0, p);
      var t := s.(now := s.now + 1);
      if w.sendOk(s.now, fd, m) {
        ForcedTaken(w, s, t.(wire := t.wire + [Sent(fd, m)]), Sent(fd, m));
      } else {
        CloseSingle(w, t, p);
        var v := t.(conns := Without(t.conns, p), clients := 0, mode := Buffer);
        assert Placed(v) == Placed(s);
        OnlyNewsPlaces(v, Close(w, t, fd));
        GrowsIfNothingCleared(s, Close(w, t, fd));
      }
    }
  }

  /** Draining moves the history to the client without losing, repeating or reordering anything. */
  lemma {:induction false} DrainLoopOne(w: World, s: State)
    requires One(w, s) && Stores(s.mode) && s.ring != []
    ensures var o := DrainLoop(w, s);
      && Single(w, o.st) && SameApps(s, o.st)
      && (o.ret == Ok ==> o.st.clients == 1 && o.st.mode == SendDirect && o.st.ring == [] && ReportDue(o.st) == 0)
    decreases |s.conns|, ReportDue(s), |s.ring|
  {
    var o := ClientSend(w, s, true, s.ring[0]);
    ForcedProgress(w, s, s.ring[0]);
    ForcedOne(w, s);
    if o.ret == Ok {
      var r := Drained(s, o.st);
      ClientSendInv(w, s, true, s.ring[0]);
      if r.ring == [] {
        assert Placed(r.(mode := SendDirect)) == Placed(r);
      } else {
        DrainLoopOne(w, r);
        GrowsTrans(s, r, DrainLoop(w, r).st);
      }
    }
  }

  /** The first client: history first, then the overflow report, whose value is what is reset. */
  lemma {:induction false} ClientUpdateOne(w: World, s: State)
    requires One(w, s) && s.mode == SendBuffer && s.ring != []
    ensures var r := ClientUpdate(w, s); One(w, r) && SameApps(s, r)
  {
    ClientUpdateInv(w, s);
    DrainLoopOne(w, s);
    DrainLoopInv(w, s);
    var o := Drain(w, s);
    if o.ret == Ok && o.st.overflow > 0 {
      SendOne(w, o.st, Report(o.st.overflow));
      var p := ClientSend(w, o.st, false, Report(o.st.overflow));
      if p.ret == Ok {
        ClearOne(w, o.st, p, p.st.guard);
      }
      GrowsTrans(s, o.st, ClientUpdate(w, s));
    }
  }

  lemma {:induction false} RegisterOne(w: World, s: State, fd: int)
    requires One(w, s) && s.clients == 0
    ensures One(w, Register(s, fd)) && Placed(Register(s, fd)) == Placed(s)
  {
    RegisterInv(w, s, fd);
    CountSplit(s.conns, [Conn(fd, Tcp)]);
    assert ClientCount([Conn(fd, Tcp)]) == 1;
  }

  /** A message of the daemon itself changes nothing about the application messages. */
  lemma {:induction false} SendNews(w: World, s: State, m: Msg)
    requires One(w, s) && !m.App?
    ensures var r := ClientSend(w, s, false, m).st; One(w, r) && SameApps(s, r)
  {
    SendOne(w, s, m);
    ClientSendInv(w, s, false, m);
    assert AppIds([m]) == [];
  }

  lemma {:induction false} GreetOne(w: World, s: State, fd: int)
    requires One(w, s)
    ensures One(w, Greet(w, s, fd)) && SameApps(s, Greet(w, s, fd))
  {
    if w.sendOk(s.now, fd, Info(true)) {
      GreetingPlaces(s, Greet(w, s, fd), Sent(fd, Info(true)));
    }
  }

  /** The line about the new client is buffered behind the history, so there is something to drain. */
  lemma {:induction false} OpenedOne(w: World, u: State, m: Msg)
    requires One(w, u) && u.clients == 1 && Stores(u.mode) && m.Opened?
    ensures var v := ClientSend(w, u, false, m).st; var z := v.(mode := SendBuffer);
      v.clients == 1 && One(w, z) && z.ring != [] && SameApps(u, z)
  {
    SendWhileStoring(w, u, m);
    SendNews(w, u, m);
    var v := Store(w, u, m).st;
    assert Placed(v.(mode := SendBuffer)) == Placed(v);
  }

  /** A client connects while nobody is connected. */
  lemma {:induction false} ConnectOne(w: World, s: State, fd: int)
    requires One(w, s) && s.clients == 0
    ensures One(w, Connect(w, s, fd)) && SameApps(s, Connect(w, s, fd))
  {
    ConnectInv(w, s, fd);
    var t := Register(s, fd);
    RegisterOne(w, s, fd);
    var u := Greet(w, t, fd);
    GreetOne(w, t, fd);
    if t.clients == 1 {
      var m := Opened(fd, u.clients);
      OpenedOne(w, u, m);
      var z := ClientSend(w, u, false, m).st.(mode := SendBuffer);
      ClientUpdateOne(w, z);
      GrowsTrans(u, z, ClientUpdate(w, z));
      GrowsTrans(s, u, ClientUpdate(w, z));
    } else {
      // the descriptor was already registered for something else
      SendNews(w, u, Opened(fd, u.clients));
      GrowsTrans(s, u, Connect(w, s, fd));
    }
  }

  lemma {:induction false} DrainOne(w: World, s: State)
    requires One(w, s) && (s.mode == SendBuffer || s.mode == BufferFull)
    ensures var r := Drain(w, s).st; One(w, r) && SameApps(s, r)
  {
    if s.ring == [] {
      assert Placed(Drain(w, s).st) == Placed(s);
    } else {
      DrainLoopOne(w, s);
      DrainLoopInv(w, s);
    }
  }

  lemma {:induction false} TickOne(w: World, s: State)
    requires One(w, s)
    ensures One(w, Tick(w, s)) && SameApps(s, Tick(w, s))
  {
    var t := s;
    if s.mode == SendBuffer || s.mode == BufferFull {
      t := Drain(w, s).st;
      DrainOne(w, s);
    }
    if w.timing && t.mode == SendDirect {
      SendNews(w, t, Time);
      GrowsTrans(s, t, ClientSend(w, t, false, Time).st);
    }
  }

  lemma {:induction false} AppLossOne(w: World, s: State, n: nat)
    requires One(w, s)
    ensures One(w, AppLoss(w, s, n)) && SameApps(s, AppLoss(w, s, n))
  {
    AppLossInv(w, s, n);
    SendNews(w, s, AppReport(n));
    var o := ClientSend(w, s, false, AppReport(n));
    assert Placed(AppLoss(w, s, n)) == Placed(o.st);
  }

  lemma {:induction false} UnregisterOne(w: World, s: State, fd: int)
    requires One(w, s)
    ensures var u := Unregister(s, fd); var v := if u.clients == 0 then u.(mode := Buffer) else u;
      One(w, v) && SameApps(s, v)
  {
    UnregisterInv(w, s, fd);
    var i := Find(s.conns, fd);
    if i < |s.conns| {
      CountWithout(s.conns, i);
    }
    assert Placed(Unregister(s, fd)) == Placed(s);
  }

  /** A registered descriptor hangs up: the client itself or anything else the daemon polls. */
  lemma {:induction false} DropOne(w: World, s: State, fd: int)
    requires One(w, s)
    ensures One(w, Close(w, s, fd)) && SameApps(s, Close(w, s, fd))
  {
    var u := Unregister(s, fd);
    var v := if u.clients == 0 then u.(mode := Buffer) else u;
    UnregisterOne(w, s, fd);
    SendNews(w, v, Info(false));
    var t := ClientSend(w, v, false, Info(false)).st;
    SendNews(w, t, Closed(fd, t.clients));
    GrowsTrans(s, v, t);
    GrowsTrans(s, t, Close(w, s, fd));
  }
}

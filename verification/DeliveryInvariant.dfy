/** What every step of the delivery keeps, for any number of clients. */
module DeliveryInvariant {
  import opened Delivery

  function Sum(s: seq<nat>): nat {
    if s == [] then 0 else s[|s| - 1] + Sum(s[..|s| - 1])
  }

  /** Clients among the polled connections. */
  function ClientCount(cs: seq<Conn>): nat {
    if cs == [] then 0 else (if cs[0].kind != Other then 1 else 0) + ClientCount(cs[1..])
  }

  predicate DistinctFds(cs: seq<Conn>) {
    forall i, j :: 0 <= i < j < |cs| ==> cs[i].fd != cs[j].fd
  }

  predicate Inv(w: World, s: State) {
    && (s.mode == SendDirect ==> s.ring == [])
    && (s.mode == BufferFull ==> s.ring != [])
    && s.guard <= 1
    && s.lost == Sum(s.cleared) + s.overflow
    && DistinctFds(s.conns)
    && ClientCount(s.conns) <= s.clients
    && (Masked(w) && !w.serialDevice && (s.mode == SendBuffer || s.mode == SendDirect) ==> s.clients > 0)
  }

  lemma {:induction false} SumAppend(s: seq<nat>, x: nat)
    ensures Sum(s + [x]) == Sum(s) + x
  {
    assert (s + [x])[..|s|] == s;
  }

  lemma {:induction false} CountSplit(a: seq<Conn>, b: seq<Conn>)
    ensures ClientCount(a + b) == ClientCount(a) + ClientCount(b)
  {
    if a == [] {
      assert a + b == b;
    } else {
      CountSplit(a[1..], b);
      assert (a + b)[1..] == a[1..] + b;
    }
  }

  lemma {:induction false} CountWithout(cs: seq<Conn>, i: nat)
    requires i < |cs|
    ensures ClientCount(Without(cs, i)) == ClientCount(cs) - (if cs[i].kind != Other then 1 else 0)
  {
    CountSplit(cs[..i], [cs[i]] + cs[i + 1..]);
    CountSplit([cs[i]], cs[i + 1..]);
    CountSplit(cs[..i], cs[i + 1..]);
    assert cs == cs[..i] + ([cs[i]] + cs[i + 1..]);
  }

  lemma {:induction false} CountPositive(cs: seq<Conn>, i: nat)
    requires i < |cs| && cs[i].kind != Other
    ensures ClientCount(cs) > 0
  {
    CountWithout(cs, i);
  }

  lemma {:induction false} UnregisterInv(w: World, s: State, fd: int)
    requires DistinctFds(s.conns) && ClientCount(s.conns) <= s.clients
    ensures var u := Unregister(s, fd); DistinctFds(u.conns) && ClientCount(u.conns) <= u.clients
  {
    var i := Find(s.conns, fd);
    if i < |s.conns| {
      CountWithout(s.conns, i);
    }
  }

  lemma {:induction false} StoreInv(w: World, s: State, m: Msg)
    requires Inv(w, s) && Stores(s.mode)
    ensures Inv(w, Store(w, s, m).st)
  {
  }

  /** Resetting the counter after a report. */
  lemma {:induction false} ClearInv(w: World, s: State, guard: nat)
    requires Inv(w, s) && guard <= 1
    ensures Inv(w, s.(overflow := 0, cleared := s.cleared + [s.overflow], guard := guard))
  {
    SumAppend(s.cleared, s.overflow);
  }

  lemma {:induction false} ClientSendInv(w: World, s: State, forced: bool, m: Msg)
    requires Inv(w, s)
    ensures Inv(w, ClientSend(w, s, forced, m).st)
    decreases |s.conns|, GuardOpen(s), 3, 0
  {
    var t := if Attempts(w, s, forced) then FanOut(w, s, m, 0, false).st else s;
    if Attempts(w, s, forced) {
      FanOutInv(w, s, m, 0, false);
    }
    if Stores(t.mode) {
      StoreInv(w, t, m);
    }
    SettleInv(w, t);
  }

  lemma {:induction false} SettleInv(w: World, s: State)
    requires Inv(w, s)
    ensures Inv(w, Settle(w, s))
    decreases |s.conns|, GuardOpen(s), 2, 0
  {
    if s.overflow > 0 && s.clients > 0 && s.guard == 0 {
      var o := ClientSend(w, s.(guard := 1), false, Report(s.overflow));
      ClientSendInv(w, s.(guard := 1), false, Report(s.overflow));
      if o.ret == Ok {
        ClearInv(w, o.st, o.st.guard - 1);
      }
    }
  }

  lemma {:induction false} FanOutInv(w: World, s: State, m: Msg, i: nat, sent: bool)
    requires Inv(w, s)
    ensures Inv(w, FanOut(w, s, m, i, sent).st)
    decreases |s.conns|, GuardOpen(s), 1, |s.conns| - i
  {
    if i < |s.conns| {
      var c := s.conns[i];
      if !Eligible(w, c) {
        FanOutInv(w, s, m, i + 1, sent);
      } else if w.sendOk(s.now, c.fd, m) {
        FanOutInv(w, s.(now := s.now + 1, wire := s.wire + [Sent(c.fd, m)]), m, i + 1, true);
      } else if c.kind == Tcp {
        CloseInv(w, s.(now := s.now + 1), c.fd);
        FanOutInv(w, Close(w, s.(now := s.now + 1), c.fd), m, i + 1, sent);
      } else {
        FanOutInv(w, s.(now := s.now + 1), m, i + 1, sent);
      }
    }
  }

  lemma {:induction false} CloseInv(w: World, s: State, fd: int)
    requires Inv(w, s)
    ensures Inv(w, Close(w, s, fd))
    decreases |Unregister(s, fd).conns|, GuardOpen(s), 4, 0
  {
    UnregisterInv(w, s, fd);
    var u := Unregister(s, fd);
    var v := if u.clients == 0 && !w.serialDevice then u.(mode := Buffer) else u;
    ClientSendInv(w, v, false, Info(false));
    var t := ClientSend(w, v, false, Info(false)).st;
    ClientSendInv(w, t, false, Closed(fd, t.clients));
  }

  /** A round of the fan-out in which the connection takes the message, or is not admitted. */
  lemma {:induction false} FanOutRound(w: World, s: State, m: Msg, i: nat, sent: bool)
    requires i < |s.conns|
    ensures Eligible(w, s.conns[i]) && w.sendOk(s.now, s.conns[i].fd, m) ==>
      FanOut(w, s, m, i, sent)
        == FanOut(w, s.(now := s.now + 1, wire := s.wire + [Sent(s.conns[i].fd, m)]), m, i + 1, true)
    ensures !Eligible(w, s.conns[i]) ==> FanOut(w, s, m, i, sent) == FanOut(w, s, m, i + 1, sent)
  {
    hide Close, ClientSend, Eligible;
  }

  /** While messages are buffered nothing but a forced send reaches a client. */
  lemma {:induction false} SendWhileStoring(w: World, s: State, m: Msg)
    requires Stores(s.mode)
    ensures ClientSend(w, s, false, m) == Store(w, s, m)
  {
  }

  predicate SameClients(s: State, t: State) {
    t.conns == s.conns && t.clients == s.clients
  }

  lemma {:induction false} StoreKeeps(w: World, s: State, m: Msg)
    requires Stores(s.mode)
    ensures var r := Store(w, s, m).st;
      && Stores(r.mode) && SameClients(s, r)
      && r.guard == s.guard && r.cleared == s.cleared && r.wire == s.wire
  {
  }

  /** While messages are buffered, closing a connection only stores messages. */
  lemma {:induction false} CloseWhileStoring(w: World, s: State, fd: int)
    requires Stores(s.mode)
    ensures var r := Close(w, s, fd);
      && Stores(r.mode) && SameClients(Unregister(s, fd), r)
      && r.guard == s.guard && r.cleared == s.cleared && r.wire == s.wire
  {
    var u := Unregister(s, fd);
    var v := if u.clients == 0 && !w.serialDevice then u.(mode := Buffer) else u;
    SendWhileStoring(w, v, Info(false));
    StoreKeeps(w, v, Info(false));
    var t := Store(w, v, Info(false)).st;
    SendWhileStoring(w, t, Closed(fd, t.clients));
    StoreKeeps(w, t, Closed(fd, t.clients));
    assert Close(w, s, fd) == Store(w, t, Closed(fd, t.clients)).st;
  }

  lemma {:induction false} SettleWhileStoring(w: World, s: State)
    requires Stores(s.mode)
    ensures Stores(Settle(w, s).mode) && SameClients(s, Settle(w, s)) && Settle(w, s).wire == s.wire
  {
    if s.overflow > 0 && s.clients > 0 && s.guard == 0 {
      SendWhileStoring(w, s.(guard := 1), Report(s.overflow));
      StoreKeeps(w, s.(guard := 1), Report(s.overflow));
    }
  }

  predicate ClientAt(cs: seq<Conn>, j: nat) {
    j < |cs| && cs[j].kind != Other
  }

  /** Closing the connection at index i leaves the earlier ones where they are. */
  lemma {:induction false} CloseKeepsEarlier(w: World, s: State, i: nat)
    requires Stores(s.mode) && DistinctFds(s.conns) && i < |s.conns|
    ensures var r := Close(w, s, s.conns[i].fd);
      Stores(r.mode) && r.conns == Without(s.conns, i) && DistinctFds(r.conns)
  {
    CloseWhileStoring(w, s, s.conns[i].fd);
    assert Find(s.conns, s.conns[i].fd) == i;
  }

  /** A client that took the message is still registered when the fan-out ends: j finds one before index i,
      k one at the end. */
  lemma {:induction false} FanOutKeepsTaker(w: World, s: State, m: Msg, i: nat, sent: bool, j: nat) returns (k: nat)
    requires Stores(s.mode) && DistinctFds(s.conns)
    requires sent ==> j < i && ClientAt(s.conns, j)
    ensures var r := FanOut(w, s, m, i, sent); Stores(r.st.mode) && (r.sent ==> ClientAt(r.st.conns, k))
    decreases |s.conns|, |s.conns| - i
  {
    hide Close, ClientSend;
    k := j;
    if i < |s.conns| {
      var c := s.conns[i];
      var t := s.(now := s.now + 1);
      if !Eligible(w, c) {
        k := FanOutKeepsTaker(w, s, m, i + 1, sent, j);
      } else if w.sendOk(s.now, c.fd, m) {
        k := FanOutKeepsTaker(w, t.(wire := s.wire + [Sent(c.fd, m)]), m, i + 1, true, i);
      } else if c.kind == Tcp {
        CloseKeepsEarlier(w, t, i);
        k := FanOutKeepsTaker(w, Close(w, t, c.fd), m, i + 1, sent, j);
      } else {
        k := FanOutKeepsTaker(w, t, m, i + 1, sent, j);
      }
    }
  }

  /** A forced send that succeeds while messages are buffered leaves a client behind. */
  lemma {:induction false} ForcedKeepsClient(w: World, s: State, m: Msg)
    requires Inv(w, s) && Stores(s.mode)
    ensures var o := ClientSend(w, s, true, m); Stores(o.st.mode) && (Masked(w) && o.ret == Ok ==> o.st.clients > 0)
  {
    if Masked(w) {
      var f := FanOut(w, s, m, 0, false);
      var k := FanOutKeepsTaker(w, s, m, 0, false, 0);
      FanOutInv(w, s, m, 0, false);
      if f.sent {
        CountPositive(f.st.conns, k);
        SettleWhileStoring(w, f.st);
      }
    } else {
      SettleWhileStoring(w, s);
    }
  }

  lemma {:induction false} DrainLoopInv(w: World, s: State)
    requires Inv(w, s) && Stores(s.mode)
    ensures Inv(w, DrainLoop(w, s).st)
    decreases |s.conns|, ReportDue(s), |s.ring|
  {
    if s.ring != [] {
      var o := ClientSend(w, s, true, s.ring[0]);
      ForcedProgress(w, s, s.ring[0]);
      ClientSendInv(w, s, true, s.ring[0]);
      ForcedKeepsClient(w, s, s.ring[0]);
      if o.ret == Ok && |o.st.ring| > 1 {
        DrainLoopInv(w, o.st.(ring := o.st.ring[1..], mode := SendBuffer));
      }
    }
  }

  lemma {:induction false} ClientUpdateInv(w: World, s: State)
    requires Inv(w, s) && s.mode == SendBuffer
    ensures Inv(w, ClientUpdate(w, s))
  {
    DrainLoopInv(w, s);
    var o := Drain(w, s);
    if o.ret == Ok && o.st.overflow > 0 {
      ClientSendInv(w, o.st, false, Report(o.st.overflow));
      var p := ClientSend(w, o.st, false, Report(o.st.overflow));
      ClearInv(w, p.st, p.st.guard);
    }
  }

  lemma {:induction false} RegisterInv(w: World, s: State, fd: int)
    requires Inv(w, s)
    ensures Inv(w, Register(s, fd))
  {
    CountSplit(s.conns, [Conn(fd, Tcp)]);
    assert ClientCount([Conn(fd, Tcp)]) == 1;
  }

  /** SEND_DIRECT implies an empty ring buffer, BUFFER_FULL a filled one, sending implies a client, and
      every discarded message is either cleared or still counted: a new client keeps all of it. */
  lemma {:induction false} ConnectInv(w: World, s: State, fd: int)
    requires Inv(w, s)
    ensures Inv(w, Connect(w, s, fd))
  {
    RegisterInv(w, s, fd);
    var u := Greet(w, Register(s, fd), fd);
    ClientSendInv(w, u, false, Opened(fd, u.clients));
    var v := ClientSend(w, u, false, Opened(fd, u.clients)).st;
    if v.clients == 1 {
      ClientUpdateInv(w, v.(mode := SendBuffer));
    }
  }

  lemma {:induction false} TickInv(w: World, s: State)
    requires Inv(w, s)
    ensures Inv(w, Tick(w, s))
  {
    if s.mode == SendBuffer || s.mode == BufferFull {
      if s.ring != [] {
        DrainLoopInv(w, s);
      }
    }
    var t := if s.mode == SendBuffer || s.mode == BufferFull then Drain(w, s).st else s;
    ClientSendInv(w, t, false, Time);
  }

  lemma {:induction false} AppLossInv(w: World, s: State, n: nat)
    requires Inv(w, s)
    ensures Inv(w, AppLoss(w, s, n))
  {
    ClientSendInv(w, s, false, AppReport(n));
  }
}

/** What a failed send does: which connection is closed, who is told, and who is passed over. */
module DeliveryFailure {
  import opened Delivery
  import opened DeliveryInvariant
  import opened DeliveryRuns
  import opened DeliveryProgress

  /** Sending to this descriptor never fails. */
  ghost predicate Healthy(w: World, fd: int) {
    forall t: nat, m: Msg :: w.sendOk(t, fd, m)
  }

  lemma {:induction false} CopiesSplit(w: World, a: seq<Conn>, b: seq<Conn>, m: Msg)
    ensures Copies(w, a + b, m) == Copies(w, a, m) + Copies(w, b, m)
  {
    hide Eligible;
    if a == [] {
      assert a + b == b;
    } else {
      assert (a + b)[1..] == a[1..] + b;
      CopiesSplit(w, a[1..], b, m);
    }
  }

  lemma {:induction false} OneCopy(w: World, c: Conn, m: Msg)
    ensures Copies(w, [c], m)
      == if (c.kind == Tcp && w.tcp) || (c.kind == Serial && w.serial) then [Sent(c.fd, m)] else []
  {
  }

  /** Position by position: an admitted connection gets its copy between those of its neighbours. */
  lemma {:induction false} CopiesAt(w: World, cs: seq<Conn>, m: Msg, j: nat)
    requires j < |cs|
    ensures Copies(w, cs, m)
      == Copies(w, cs[..j], m)
         + (if (cs[j].kind == Tcp && w.tcp) || (cs[j].kind == Serial && w.serial)
            then [Sent(cs[j].fd, m)] else [])
         + Copies(w, cs[j + 1..], m)
  {
    hide Copies;
    assert cs == cs[..j] + [cs[j]] + cs[j + 1..];
    CopiesSplit(w, cs[..j] + [cs[j]], cs[j + 1..], m);
    CopiesSplit(w, cs[..j], [cs[j]], m);
    OneCopy(w, cs[j], m);
  }

  lemma {:induction false} CopiesNext(w: World, cs: seq<Conn>, m: Msg, i: nat, k: nat)
    requires i < k <= |cs|
    ensures Copies(w, cs[i..k], m)
        == (if Eligible(w, cs[i]) then [Sent(cs[i].fd, m)] else []) + Copies(w, cs[i + 1..k], m)
  {
    assert cs[i..k][1..] == cs[i + 1..k];
  }

  /** As long as nobody fails, the loop gives the connections before index k their copies. */
  lemma {:induction false} FanOutUpTo(w: World, s: State, m: Msg, i: nat, k: nat, sent: bool)
    returns (t: State, got: bool)
    requires i <= k <= |s.conns| && Takes(w, s.conns[i..k], m)
    ensures t == s.(wire := s.wire + Copies(w, s.conns[i..k], m), now := t.now)
    ensures FanOut(w, s, m, i, sent) == FanOut(w, t, m, k, got)
    decreases k - i
  {
    hide FanOut;
    if i == k {
      t, got := s, sent;
      assert s.conns[i..k] == [];
      assert s.wire + [] == s.wire;
    } else {
      FanOutRound(w, s, m, i, sent);
      CopiesNext(w, s.conns, m, i, k);
      assert s.conns[i..k][0] == s.conns[i];
      assert s.conns[i..k][1..] == s.conns[i + 1..k];
      var rest := Copies(w, s.conns[i + 1..k], m);
      if Eligible(w, s.conns[i]) {
        var x := Sent(s.conns[i].fd, m);
        t, got := FanOutUpTo(w, s.(now := s.now + 1, wire := s.wire + [x]), m, i + 1, k, true);
        assert (s.wire + [x]) + rest == s.wire + ([x] + rest);
      } else {
        t, got := FanOutUpTo(w, s, m, i + 1, k, sent);
        assert [] + rest == rest;
      }
    }
  }

  /** A round of the loop in which the send fails. */
  lemma {:induction false} FanOutFails(w: World, s: State, m: Msg, i: nat, sent: bool)
    requires i < |s.conns| && Eligible(w, s.conns[i]) && !w.sendOk(s.now, s.conns[i].fd, m)
    ensures var t := s.(now := s.now + 1);
      FanOut(w, s, m, i, sent)
        == FanOut(w, if s.conns[i].kind == Tcp then Close(w, t, s.conns[i].fd) else t, m, i + 1, sent)
  {
  }

  /** In SEND_DIRECT one client fails to take a message that all others take. Exactly that client is closed.
      Those before it got the message, then all who stay are told that it left, then the rest get the
      message: all but the connection right behind it, which the loop passes over. */
  lemma {:induction false} OneFails(w: World, s: State, m: Msg, k: nat)
    requires s.mode == SendDirect && s.clients > 1 && DistinctFds(s.conns) && DueReport(s) == []
    requires k < |s.conns| && s.conns[k].kind == Tcp && w.tcp
    requires forall t: nat, fd, x :: w.sendOk(t, fd, x) <==> !(fd == s.conns[k].fd && x == m)
    ensures var fd := s.conns[k].fd;
      var stay := s.conns[..k] + s.conns[k + 1..];
      var o := ClientSend(w, s, false, m);
      && o.ret == Ok
      && o.st == s.(conns := stay, clients := s.clients - 1, now := o.st.now,
                    wire := s.wire + Copies(w, s.conns[..k], m)
                      + Copies(w, stay, Info(false)) + Copies(w, stay, Closed(fd, s.clients - 1))
                      + Copies(w, if k + 1 < |s.conns| then s.conns[k + 2..] else [], m))
  {
    hide FanOut, Copies, ClientSend;
    var f := FanOut(w, s, m, 0, false).st;
    LoopClosesOne(w, s, m, k);
    DirectSend(w, s, m);
  }

  /** The loop that OneFails is about. */
  lemma {:induction false} LoopClosesOne(w: World, s: State, m: Msg, k: nat)
    requires s.mode == SendDirect && s.clients > 1 && DistinctFds(s.conns) && DueReport(s) == []
    requires k < |s.conns| && s.conns[k].kind == Tcp && w.tcp
    requires forall t: nat, fd, x :: w.sendOk(t, fd, x) <==> !(fd == s.conns[k].fd && x == m)
    ensures var fd := s.conns[k].fd;
      var stay := s.conns[..k] + s.conns[k + 1..];
      var f := FanOut(w, s, m, 0, false).st;
      f == s.(conns := stay, clients := s.clients - 1, now := f.now,
              wire := s.wire + Copies(w, s.conns[..k], m)
                + Copies(w, stay, Info(false)) + Copies(w, stay, Closed(fd, s.clients - 1))
                + Copies(w, if k + 1 < |s.conns| then s.conns[k + 2..] else [], m))
  {
    hide FanOut, Close, Copies, Takes, Eligible;
    OthersTake(w, s.conns, m, k);
    var v, got := LoopUpToFailure(w, s, m, k);
    NewsOfClosing(w, v, k);
    LoopGoesOn(w, Close(w, v, s.conns[k].fd), m, k, got);
    var last := if k + 1 < |s.conns| then s.conns[k + 2..] else [];
    var stay := s.conns[..k] + s.conns[k + 1..];
    assert k < |stay| ==> stay[k + 1..] == last;
  }

  /** The loop as far as the closing of the connection that fails. */
  lemma {:induction false} LoopUpToFailure(w: World, s: State, m: Msg, k: nat) returns (v: State, got: bool)
    requires k < |s.conns| && s.conns[k].kind == Tcp && w.tcp && Takes(w, s.conns[0..k], m)
    requires forall t: nat :: !w.sendOk(t, s.conns[k].fd, m)
    ensures v == s.(wire := s.wire + Copies(w, s.conns[..k], m), now := v.now)
    ensures FanOut(w, s, m, 0, false) == FanOut(w, Close(w, v, s.conns[k].fd), m, k + 1, got)
  {
    assert Eligible(w, s.conns[k]);
    hide FanOut, Close, Copies, Takes, Eligible;
    var t;
    t, got := FanOutUpTo(w, s, m, 0, k, false);
    assert s.conns[0..k] == s.conns[..k];
    FanOutFails(w, t, m, k, got);
    v := t.(now := t.now + 1);
  }

  lemma {:induction false} OthersTake(w: World, cs: seq<Conn>, m: Msg, k: nat)
    requires DistinctFds(cs) && k < |cs|
    requires forall t: nat, fd, x :: w.sendOk(t, fd, x) <==> !(fd == cs[k].fd && x == m)
    ensures Takes(w, cs[0..k], m) && Takes(w, cs[..k] + cs[k + 1..], m) && Takes(w, cs[k + 1..|cs|], m)
  {
  }

  lemma {:induction false} NewsOfClosing(w: World, s: State, k: nat)
    requires s.mode == SendDirect && s.clients > 1 && DistinctFds(s.conns) && DueReport(s) == []
    requires k < |s.conns| && s.conns[k].kind == Tcp && w.tcp
    requires forall t: nat, fd, x :: fd != s.conns[k].fd ==> w.sendOk(t, fd, x)
    ensures var fd := s.conns[k].fd;
      var stay := s.conns[..k] + s.conns[k + 1..];
      var r := Close(w, s, fd);
      r == s.(conns := stay, clients := s.clients - 1, now := r.now,
              wire := s.wire + Copies(w, stay, Info(false)) + Copies(w, stay, Closed(fd, s.clients - 1)))
  {
    hide Close, AllCopies, Copies;
    var fd := s.conns[k].fd;
    assert Find(s.conns, fd) == k;
    var u := Unregister(s, fd);
    LeavingIsTold(w, s, fd);
    TwoCopies(w, u.conns, Info(false), Closed(fd, u.clients));
    var a, b := Copies(w, u.conns, Info(false)), Copies(w, u.conns, Closed(fd, u.clients));
    assert s.wire + (a + b) == s.wire + a + b;
  }

  lemma {:induction false} LoopGoesOn(w: World, s: State, m: Msg, k: nat, sent: bool)
    requires k <= |s.conns| && Takes(w, s.conns, m)
    ensures var f := FanOut(w, s, m, k + 1, sent).st;
      f == s.(now := f.now, wire := s.wire + Copies(w, if k < |s.conns| then s.conns[k + 1..] else [], m))
  {
    if k < |s.conns| {
      FanOutReachesAll(w, s, m, k + 1, sent);
    } else {
      FanOutEnds(w, s, m, k + 1, sent);
      assert s.wire + [] == s.wire;
    }
  }

  lemma {:induction false} FanOutEnds(w: World, s: State, m: Msg, i: nat, sent: bool)
    requires i >= |s.conns|
    ensures FanOut(w, s, m, i, sent) == Fan(s, sent)
  {
  }

  lemma {:induction false} TwoCopies(w: World, cs: seq<Conn>, a: Msg, b: Msg)
    ensures AllCopies(w, cs, [a, b]) == Copies(w, cs, a) + Copies(w, cs, b)
  {
    assert [a, b][1..] == [b] && [b][1..] == [];
    assert AllCopies(w, cs, [b]) == Copies(w, cs, b) + AllCopies(w, cs, []);
  }

  /** Where the loop leaves SEND_DIRECT and no due report, that is all a send does. */
  lemma {:induction false} DirectSend(w: World, s: State, m: Msg)
    requires Masked(w) && s.mode == SendDirect
    ensures var f := FanOut(w, s, m, 0, false).st;
      f.mode == SendDirect && DueReport(f) == [] ==> ClientSend(w, s, false, m) == Outcome(f, Ok)
  {
  }

  /** A serial line that fails is not closed, and nobody is passed over. */
  lemma {:induction false} SerialFails(w: World, s: State, m: Msg, k: nat)
    requires s.mode == SendDirect && DistinctFds(s.conns) && DueReport(s) == []
    requires k < |s.conns| && s.conns[k].kind == Serial && w.serial
    requires forall t: nat, fd, x :: w.sendOk(t, fd, x) <==> !(fd == s.conns[k].fd && x == m)
    ensures var o := ClientSend(w, s, false, m);
      && o.ret == Ok
      && o.st == s.(now := o.st.now,
                    wire := s.wire + Copies(w, s.conns[..k], m) + Copies(w, s.conns[k + 1..], m))
  {
    OthersTake(w, s.conns, m, k);
    assert Eligible(w, s.conns[k]);
    hide FanOut, Close, Copies, ClientSend, Takes, Eligible;
    var t, got := FanOutUpTo(w, s, m, 0, k, false);
    assert s.conns[0..k] == s.conns[..k];
    FanOutFails(w, t, m, k, got);
    var v := t.(now := t.now + 1);
    var u, all := FanOutUpTo(w, v, m, k + 1, |s.conns|, got);
    assert s.conns[k + 1..|s.conns|] == s.conns[k + 1..];
    FanOutEnds(w, u, m, |s.conns|, all);
    DirectSend(w, s, m);
  }

  /** Where no connection is admitted, a forced send fails, and so does draining, without losing a message. */
  lemma {:induction false} NobodyListens(w: World, s: State, m: Msg)
    requires w.tcp || w.serial
    requires forall j :: 0 <= j < |s.conns| ==>
      !(s.conns[j].kind == Tcp && w.tcp) && !(s.conns[j].kind == Serial && w.serial)
    ensures var o := ClientSend(w, s, true, m); o == Outcome(s.(now := o.st.now), SendFailed)
    ensures s.ring != [] ==> var o := Drain(w, s); o == Outcome(s.(now := o.st.now), SendFailed)
  {
    NobodyIsSent(w, s, m);
    if s.ring != [] {
      NobodyIsSent(w, s, s.ring[0]);
    }
    hide ClientSend;
  }

  lemma {:induction false} NobodyIsSent(w: World, s: State, m: Msg)
    requires Masked(w) && forall j :: 0 <= j < |s.conns| ==> !Eligible(w, s.conns[j])
    ensures var o := ClientSend(w, s, true, m); o == Outcome(s.(now := o.st.now), SendFailed)
  {
    FanOutReachesAll(w, s, m, 0, false);
    CopiesExist(w, s.conns, m);
    assert s.conns[0..] == s.conns;
    assert s.wire + [] == s.wire;
    hide FanOut, Settle;
  }

  /** The last client leaves and there is no serial device: the daemon buffers from now on, beginning with the
      two messages about it. An empty buffer takes the first in any case. */
  lemma {:induction false} LastClientLeaves(w: World, s: State, fd: int)
    requires !w.serialDevice && Unregister(s, fd).clients == 0 && s.mode == SendDirect && s.ring == []
    ensures var u := Unregister(s, fd); var r := Close(w, s, fd);
      if w.pushOk(s.now + 1, Closed(fd, 0)) then
        r == u.(mode := Buffer, ring := [Info(false), Closed(fd, 0)], now := s.now + 2)
      else
        r == u.(mode := BufferFull, ring := [Info(false)], now := s.now + 2, overflow := s.overflow + 1,
                lost := s.lost + 1, refused := s.refused + [Closed(fd, 0)])
  {
    var v := Unregister(s, fd).(mode := Buffer);
    assert v.ring + [Info(false)] == [Info(false)];
    assert [Info(false)] + [Closed(fd, 0)] == [Info(false), Closed(fd, 0)];
    hide ClientSend, Unregister;
    BufferedOrRefused(w, v, Info(false));
    BufferedOrRefused(w, v.(ring := [Info(false)], now := s.now + 1), Closed(fd, 0));
  }

  /** What becomes of a message while the daemon buffers: a full buffer refuses it, an empty one takes it, and
      otherwise the ring buffer decides; once refused, the buffer counts as full. */
  lemma {:induction false} BufferedOrRefused(w: World, s: State, m: Msg)
    requires s.mode == Buffer || s.mode == SendBuffer || s.mode == BufferFull
    ensures var o := ClientSend(w, s, false, m);
      if s.mode != BufferFull && (s.ring == [] || w.pushOk(s.now, m)) then
        o == Outcome(s.(ring := s.ring + [m], now := s.now + 1), Ok)
      else
        o == Outcome(s.(mode := BufferFull, overflow := s.overflow + 1, lost := s.lost + 1,
                        refused := s.refused + [m],
                        now := if s.mode == BufferFull then s.now else s.now + 1), Full)
  {
    SendWhileStoring(w, s, m);
  }

  /** An application tells of n lost messages while the daemon buffers: the message about it is kept, or the
      daemon counts it together with the n. */
  lemma {:induction false} LossBuffered(w: World, s: State, n: nat)
    requires s.mode == Buffer || s.mode == SendBuffer || s.mode == BufferFull
    ensures var r := AppLoss(w, s, n);
      if s.mode != BufferFull && (s.ring == [] || w.pushOk(s.now, AppReport(n))) then
        r == s.(ring := s.ring + [AppReport(n)], now := s.now + 1)
      else
        && r.overflow == s.overflow + 1 + n && r.lost == s.lost + 1 + n
        && r.mode == BufferFull && r.ring == s.ring && r.refused == s.refused + [AppReport(n)]
  {
    hide ClientSend;
    BufferedOrRefused(w, s, AppReport(n));
  }

  /** The timer leaves plain buffering alone. */
  lemma {:induction false} TimerWhileBuffering(w: World, s: State)
    requires s.mode == Buffer || s.mode == Init
    ensures Tick(w, s) == s
  {
  }

  /** In Init, or with neither TCP nor serial in the mask, a message that is not buffered goes nowhere. */
  lemma {:induction false} NowhereToGo(w: World, s: State, m: Msg)
    requires s.mode == Init || (s.mode == SendDirect && !w.tcp && !w.serial)
    requires DueReport(s) == []
    ensures ClientSend(w, s, false, m) == Outcome(s, Ok)
  {
  }

  /** The connection stands in the table under its own descriptor, and nothing sent to it fails. */
  ghost predicate Kept(w: World, s: State, c: Conn) {
    c in s.conns && DistinctFds(s.conns) && Healthy(w, c.fd)
  }

  lemma {:induction false} UnregisterKept(w: World, s: State, fd: int, c: Conn)
    requires Kept(w, s, c) && fd != c.fd
    ensures Kept(w, Unregister(s, fd), c)
  {
    var i := Find(s.conns, fd);
    if i < |s.conns| {
      var j :| 0 <= j < |s.conns| && s.conns[j] == c;
      assert Without(s.conns, i)[if j < i then j else j - 1] == c;
    }
  }

  /** No send, whatever else fails and closes meanwhile, takes a connection that never fails. */
  lemma {:induction false} ClientSendKept(w: World, s: State, forced: bool, m: Msg, c: Conn)
    requires Kept(w, s, c)
    ensures Kept(w, ClientSend(w, s, forced, m).st, c)
    decreases |s.conns|, GuardOpen(s), 3, 0
  {
    var t := if Attempts(w, s, forced) then FanOut(w, s, m, 0, false).st else s;
    if Attempts(w, s, forced) {
      FanOutKept(w, s, m, 0, false, c);
    }
    SettleKept(w, t, c);
  }

  lemma {:induction false} SettleKept(w: World, s: State, c: Conn)
    requires Kept(w, s, c)
    ensures Kept(w, Settle(w, s), c)
    decreases |s.conns|, GuardOpen(s), 2, 0
  {
    if s.overflow > 0 && s.clients > 0 && s.guard == 0 {
      ClientSendKept(w, s.(guard := 1), false, Report(s.overflow), c);
    }
  }

  lemma {:induction false} FanOutKept(w: World, s: State, m: Msg, i: nat, sent: bool, c: Conn)
    requires Kept(w, s, c)
    ensures Kept(w, FanOut(w, s, m, i, sent).st, c)
    decreases |s.conns|, GuardOpen(s), 1, |s.conns| - i
  {
    if i < |s.conns| {
      var d := s.conns[i];
      var t := s.(now := s.now + 1);
      if !Eligible(w, d) {
        FanOutKept(w, s, m, i + 1, sent, c);
      } else if w.sendOk(s.now, d.fd, m) {
        FanOutKept(w, t.(wire := s.wire + [Sent(d.fd, m)]), m, i + 1, true, c);
      } else if d.kind == Tcp {
        CloseKept(w, t, d.fd, c);
        FanOutKept(w, Close(w, t, d.fd), m, i + 1, sent, c);
      } else {
        FanOutKept(w, t, m, i + 1, sent, c);
      }
    }
  }

  lemma {:induction false} CloseKept(w: World, s: State, fd: int, c: Conn)
    requires Kept(w, s, c) && fd != c.fd
    ensures Kept(w, Close(w, s, fd), c)
    decreases |Unregister(s, fd).conns|, GuardOpen(s), 4, 0
  {
    UnregisterKept(w, s, fd, c);
    var u := Unregister(s, fd);
    var v := if u.clients == 0 && !w.serialDevice then u.(mode := Buffer) else u;
    ClientSendKept(w, v, false, Info(false), c);
    var t := ClientSend(w, v, false, Info(false)).st;
    ClientSendKept(w, t, false, Closed(fd, t.clients), c);
  }

  lemma {:induction false} DrainLoopKept(w: World, s: State, c: Conn)
    requires Kept(w, s, c)
    ensures Kept(w, DrainLoop(w, s).st, c)
    decreases |s.conns|, ReportDue(s), |s.ring|
  {
    hide ClientSend;
    if s.ring != [] {
      ForcedProgress(w, s, s.ring[0]);
      ClientSendKept(w, s, true, s.ring[0], c);
      var o := ClientSend(w, s, true, s.ring[0]);
      if o.ret == Ok && |o.st.ring| > 1 {
        DrainLoopKept(w, o.st.(ring := o.st.ring[1..], mode := SendBuffer), c);
      }
    }
  }

  lemma {:induction false} ConnectKept(w: World, s: State, fd: int, c: Conn)
    requires Kept(w, s, c)
    ensures Kept(w, Connect(w, s, fd), c)
  {
    hide ClientSend, DrainLoop, Healthy;
    var u := Greet(w, Register(s, fd), fd);
    ClientSendKept(w, u, false, Opened(fd, u.clients), c);
    var v := ClientSend(w, u, false, Opened(fd, u.clients)).st.(mode := SendBuffer);
    DrainLoopKept(w, v, c);
    var o := Drain(w, v).st;
    ClientSendKept(w, o, false, Report(o.overflow), c);
  }

  lemma {:induction false} StepKept(w: World, tr: Trace, e: Event, c: Conn)
    requires Kept(w, tr.st, c) && e != HangUp(c.fd)
    ensures Kept(w, Step(w, tr, e).st, c)
  {
    hide ClientSend, Close, Connect, DrainLoop, Healthy;
    var s := tr.st;
    match e
    case Submit(id) => ClientSendKept(w, s, false, App(id), c);
    case Loss(n) => ClientSendKept(w, s, false, AppReport(n), c);
    case Accept(fd) => ConnectKept(w, s, fd, c);
    case HangUp(fd) => CloseKept(w, s, fd, c);
    case Timer =>
      DrainLoopKept(w, s, c);
      var t := if s.mode == SendBuffer || s.mode == BufferFull then Drain(w, s).st else s;
      ClientSendKept(w, t, false, Time, c);
  }

  /** A connection that never fails and does not hang up stays through any run, whatever the others do. */
  lemma {:induction false} HealthyStays(w: World, tr: Trace, es: seq<Event>, c: Conn)
    requires c in tr.st.conns && DistinctFds(tr.st.conns)
    requires forall t: nat, m: Msg :: w.sendOk(t, c.fd, m)
    requires HangUp(c.fd) !in es
    ensures c in Run(w, tr, es).st.conns
    decreases |es|
  {
    hide Step;
    if es != [] {
      assert Kept(w, tr.st, c);
      StepKept(w, tr, es[0], c);
      HealthyStays(w, Step(w, tr, es[0]), es[1..], c);
    }
  }
}

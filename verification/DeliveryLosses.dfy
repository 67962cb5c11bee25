/** What becomes of messages that are refused, for any number of clients. */
module DeliveryLosses {
  import opened Delivery
  import opened DeliveryOneClient

  /** From s to t the application messages in `ids` were refused, and nothing was added to the counter but
      for refused messages. */
  predicate Loses(s: State, t: State, ids: seq<nat>) {
    && AppIds(t.refused) == AppIds(s.refused) + ids
    && t.lost - |t.refused| == s.lost - |s.refused|
  }

  lemma {:induction false} LosesNothing(s: State, t: State)
    requires t.refused == s.refused && t.lost == s.lost
    ensures Loses(s, t, [])
  {
    assert AppIds(s.refused) + [] == AppIds(s.refused);
  }

  lemma {:induction false} LosesTwice(s: State, t: State, u: State, ids: seq<nat>)
    requires Loses(s, t, []) && Loses(t, u, ids)
    ensures Loses(s, u, ids)
  {
    assert AppIds(s.refused) + [] == AppIds(s.refused);
  }

  lemma {:induction false} NewsLosesNothing(s: State, t: State, m: Msg, ret: Ret)
    requires !m.App? && Loses(s, t, if ret == Full then AppIds([m]) else [])
    ensures Loses(s, t, [])
  {
    assert AppIds([m]) == [] + AppIds([m][1..]);
    assert AppIds([m][1..]) == [];
  }

  lemma {:induction false} StoreLoses(w: World, s: State, m: Msg)
    requires Stores(s.mode)
    ensures var o := Store(w, s, m); o.ret != SendFailed && Loses(s, o.st, if o.ret == Full then AppIds([m]) else [])
  {
    var o := Store(w, s, m);
    if o.ret == Full {
      AppIdsSplit(s.refused, [m]);
    } else {
      LosesNothing(s, o.st);
    }
  }

  /** A message is refused exactly if the daemon answers that the buffer is full; what it logs meanwhile is
      not an application message. */
  lemma {:induction false} ClientSendLoses(w: World, s: State, forced: bool, m: Msg)
    ensures var o := ClientSend(w, s, forced, m); Loses(s, o.st, if o.ret == Full then AppIds([m]) else [])
    ensures forced ==> ClientSend(w, s, forced, m).ret != Full
    ensures !forced ==> ClientSend(w, s, forced, m).ret != SendFailed
    decreases |s.conns|, GuardOpen(s), 3, 0
  {
    var f := if Attempts(w, s, forced) then FanOut(w, s, m, 0, false) else Fan(s, false);
    LosesNothing(s, s);
    if Attempts(w, s, forced) {
      FanOutLoses(w, s, m, 0, false);
    }
    if !forced && Stores(f.st.mode) {
      StoreLoses(w, f.st, m);
      LosesTwice(s, f.st, Store(w, f.st, m).st, if Store(w, f.st, m).ret == Full then AppIds([m]) else []);
    } else {
      SettleLoses(w, f.st);
      LosesTwice(s, f.st, Settle(w, f.st), []);
    }
  }

  lemma {:induction false} SettleLoses(w: World, s: State)
    ensures Loses(s, Settle(w, s), [])
    decreases |s.conns|, GuardOpen(s), 2, 0
  {
    if s.overflow > 0 && s.clients > 0 && s.guard == 0 {
      var t := s.(guard := 1);
      var o := ClientSend(w, t, false, Report(s.overflow));
      ClientSendLoses(w, t, false, Report(s.overflow));
      NewsLosesNothing(t, o.st, Report(s.overflow), o.ret);
    } else {
      LosesNothing(s, s);
    }
  }

  lemma {:induction false} FanOutLoses(w: World, s: State, m: Msg, i: nat, sent: bool)
    ensures Loses(s, FanOut(w, s, m, i, sent).st, [])
    decreases |s.conns|, GuardOpen(s), 1, |s.conns| - i
  {
    if i >= |s.conns| {
      LosesNothing(s, s);
    } else {
      var c := s.conns[i];
      if !Eligible(w, c) {
        FanOutLoses(w, s, m, i + 1, sent);
      } else if w.sendOk(s.now, c.fd, m) {
        FanOutLoses(w, s.(now := s.now + 1, wire := s.wire + [Sent(c.fd, m)]), m, i + 1, true);
      } else if c.kind == Tcp {
        var t := s.(now := s.now + 1);
        CloseLoses(w, t, c.fd);
        FanOutLoses(w, Close(w, t, c.fd), m, i + 1, sent);
        LosesTwice(t, Close(w, t, c.fd), FanOut(w, Close(w, t, c.fd), m, i + 1, sent).st, []);
      } else {
        FanOutLoses(w, s.(now := s.now + 1), m, i + 1, sent);
      }
    }
  }

  lemma {:induction false} CloseLoses(w: World, s: State, fd: int)
    ensures Loses(s, Close(w, s, fd), [])
    decreases |Unregister(s, fd).conns|, GuardOpen(s), 4, 0
  {
    var u := Unregister(s, fd);
    var v := if u.clients == 0 && !w.serialDevice then u.(mode := Buffer) else u;
    ClientSendLoses(w, v, false, Info(false));
    var a := ClientSend(w, v, false, Info(false));
    NewsLosesNothing(v, a.st, Info(false), a.ret);
    var m := Closed(fd, a.st.clients);
    ClientSendLoses(w, a.st, false, m);
    var b := ClientSend(w, a.st, false, m);
    NewsLosesNothing(a.st, b.st, m, b.ret);
    LosesTwice(v, a.st, b.st, []);
  }

  lemma {:induction false} DrainLoopLoses(w: World, s: State)
    ensures Loses(s, DrainLoop(w, s).st, [])
    decreases |s.conns|, ReportDue(s), |s.ring|
  {
    if s.ring == [] {
      LosesNothing(s, s);
    } else {
      ForcedProgress(w, s, s.ring[0]);
      var o := ClientSend(w, s, true, s.ring[0]);
      ClientSendLoses(w, s, true, s.ring[0]);
      if o.ret == Ok {
        var t := o.st.(ring := o.st.ring[1..], mode := SendBuffer);
        if t.ring != [] {
          DrainLoopLoses(w, t);
          LosesTwice(s, t, DrainLoop(w, t).st, []);
        }
      }
    }
  }

  lemma {:induction false} DrainLoses(w: World, s: State)
    ensures Loses(s, Drain(w, s).st, [])
  {
    LosesNothing(s, s.(mode := SendDirect));
    DrainLoopLoses(w, s);
  }

  lemma {:induction false} NewsLoses(w: World, s: State, m: Msg)
    requires !m.App?
    ensures Loses(s, ClientSend(w, s, false, m).st, [])
  {
    var o := ClientSend(w, s, false, m);
    ClientSendLoses(w, s, false, m);
    NewsLosesNothing(s, o.st, m, o.ret);
  }

  lemma {:induction false} ClientUpdateLoses(w: World, s: State)
    ensures Loses(s, ClientUpdate(w, s), [])
  {
    hide ClientSend, Drain, Loses;
    var o := Drain(w, s);
    DrainLoses(w, s);
    if o.ret == Ok && o.st.overflow != 0 {
      var m := Report(o.st.overflow);
      var p := ClientSend(w, o.st, false, m);
      NewsLoses(w, o.st, m);
      LosesTwice(s, o.st, p.st, []);
      ClearedLoses(s, p.st);
    }
  }

  lemma {:induction false} ClearedLoses(s: State, t: State)
    requires Loses(s, t, [])
    ensures Loses(s, t.(overflow := 0, cleared := t.cleared + [t.overflow]), [])
  {
  }

  lemma {:induction false} ConnectLoses(w: World, s: State, fd: int)
    ensures Loses(s, Connect(w, s, fd), [])
  {
    var u := Greet(w, Register(s, fd), fd);
    LosesNothing(s, u);
    hide ClientSend, ClientUpdate, Loses, Register, Greet;
    NewsLoses(w, u, Opened(fd, u.clients));
    var v := ClientSend(w, u, false, Opened(fd, u.clients)).st;
    LosesTwice(s, u, v, []);
    if v.clients == 1 {
      var x := v.(mode := SendBuffer);
      LosesNothing(v, x);
      LosesTwice(s, v, x, []);
      ClientUpdateLoses(w, x);
      LosesTwice(s, x, ClientUpdate(w, x), []);
    }
  }

  lemma {:induction false} TickLoses(w: World, s: State)
    ensures Loses(s, Tick(w, s), [])
  {
    hide ClientSend, Drain, Loses;
    LosesNothing(s, s);
    DrainLoses(w, s);
    var t := if s.mode == SendBuffer || s.mode == BufferFull then Drain(w, s).st else s;
    if w.timing && t.mode == SendDirect {
      NewsLoses(w, t, Time);
      LosesTwice(s, t, ClientSend(w, t, false, Time).st, []);
    }
  }

  /** A loss that an application reports is forwarded, or added to the counter. */
  lemma {:induction false} AppLossLoses(w: World, s: State, n: nat)
    ensures var o := ClientSend(w, s, false, AppReport(n)); var t := AppLoss(w, s, n);
      && AppIds(t.refused) == AppIds(s.refused)
      && t.lost - |t.refused| == s.lost - |s.refused| + (if o.ret == Ok then 0 else n)
  {
    hide ClientSend;
    NewsLoses(w, s, AppReport(n));
    assert AppIds(s.refused) + [] == AppIds(s.refused);
  }
}

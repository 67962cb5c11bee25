/** What the daemon achieves while every send succeeds: everybody gets everything. */
module DeliveryProgress {
  import opened Delivery
  import opened DeliveryInvariant
  import opened DeliveryOneClient
  import opened DeliveryManyClients
  import opened DeliveryRuns

  ghost predicate SendsSucceed(w: World) {
    forall t: nat, fd: int, m: Msg :: w.sendOk(t, fd, m)
  }

  /** Whenever the message is sent to one of these connections, the send succeeds. */
  ghost predicate Takes(w: World, cs: seq<Conn>, m: Msg) {
    forall t: nat, j :: 0 <= j < |cs| && Eligible(w, cs[j]) ==> w.sendOk(t, cs[j].fd, m)
  }

  /** A copy of the message for every connection the filter admits, in the order of the table. */
  function Copies(w: World, cs: seq<Conn>, m: Msg): seq<Sent> {
    if cs == [] then []
    else (if Eligible(w, cs[0]) then [Sent(cs[0].fd, m)] else []) + Copies(w, cs[1..], m)
  }

  /** The same for several messages, one after the other. */
  function AllCopies(w: World, cs: seq<Conn>, ms: seq<Msg>): seq<Sent> {
    if ms == [] then [] else Copies(w, cs, ms[0]) + AllCopies(w, cs, ms[1..])
  }

  predicate SomebodyListens(w: World, cs: seq<Conn>) {
    exists j :: 0 <= j < |cs| && Eligible(w, cs[j])
  }

  /** The report that the next complete send of a message brings with it. */
  function DueReport(s: State): seq<Msg> {
    if s.overflow > 0 && s.clients > 0 && s.guard == 0 then [Report(s.overflow)] else []
  }

  lemma {:induction false} CopiesExist(w: World, cs: seq<Conn>, m: Msg)
    ensures SomebodyListens(w, cs) <==> Copies(w, cs, m) != []
  {
    if cs != [] {
      CopiesExist(w, cs[1..], m);
      if SomebodyListens(w, cs) && !Eligible(w, cs[0]) {
        var j :| 0 <= j < |cs| && Eligible(w, cs[j]);
        assert Eligible(w, cs[1..][j - 1]);
      }
      if SomebodyListens(w, cs[1..]) {
        var j :| 0 <= j < |cs[1..]| && Eligible(w, cs[1..][j]);
        assert Eligible(w, cs[j + 1]);
      }
    }
  }

  lemma {:induction false} AllCopiesSplit(w: World, cs: seq<Conn>, a: seq<Msg>, b: seq<Msg>)
    ensures AllCopies(w, cs, a + b) == AllCopies(w, cs, a) + AllCopies(w, cs, b)
  {
    if a == [] {
      assert a + b == b;
    } else {
      assert (a + b)[1..] == a[1..] + b;
      AllCopiesSplit(w, cs, a[1..], b);
    }
  }

  /** The loop over the clients gives every admitted connection its copy and changes nothing else. */
  lemma {:induction false} FanOutReachesAll(w: World, s: State, m: Msg, i: nat, sent: bool)
    requires i <= |s.conns| && Takes(w, s.conns, m)
    ensures var r := FanOut(w, s, m, i, sent);
      && r.st == s.(wire := s.wire + Copies(w, s.conns[i..], m), now := r.st.now)
      && (r.sent <==> sent || Copies(w, s.conns[i..], m) != [])
    decreases |s.conns| - i
  {
    if i == |s.conns| {
      assert Copies(w, s.conns[i..], m) == [] && FanOut(w, s, m, i, sent) == Fan(s, sent);
      hide *;
      assert s.wire + [] == s.wire;
    } else {
      FanOutRound(w, s, m, i, sent);
      hide FanOut;
      var rest := Copies(w, s.conns[i + 1..], m);
      assert s.conns[i..][1..] == s.conns[i + 1..];
      if Eligible(w, s.conns[i]) {
        var x := Sent(s.conns[i].fd, m);
        assert Copies(w, s.conns[i..], m) == [x] + rest;
        FanOutReachesAll(w, s.(now := s.now + 1, wire := s.wire + [x]), m, i + 1, true);
        hide *;
        assert (s.wire + [x]) + rest == s.wire + ([x] + rest);
      } else {
        assert Copies(w, s.conns[i..], m) == rest;
        FanOutReachesAll(w, s, m, i + 1, sent);
        hide *;
      }
    }
  }

  /** In SEND_DIRECT a message reaches every admitted connection once, in the order of the table, followed by
      the report that is due, which clears the counter. */
  lemma {:induction false} SubmitReachesAll(w: World, s: State, m: Msg)
    requires Masked(w) && s.mode == SendDirect
    requires Takes(w, s.conns, m) && (DueReport(s) != [] ==> Takes(w, s.conns, DueReport(s)[0]))
    ensures var o := ClientSend(w, s, false, m);
      && o.ret == Ok
      && o.st == s.(wire := s.wire + AllCopies(w, s.conns, [m] + DueReport(s)), now := o.st.now,
                    overflow := if DueReport(s) == [] then s.overflow else 0,
                    cleared := s.cleared + if DueReport(s) == [] then [] else [s.overflow])
  {
    FanOutReachesAll(w, s, m, 0, false);
    assert s.conns[0..] == s.conns;
    var t := FanOut(w, s, m, 0, false).st;
    assert ClientSend(w, s, false, m) == Outcome(Settle(w, t), Ok);
    if DueReport(s) == [] {
      assert [m] + DueReport(s) == [m];
      assert s.cleared + [] == s.cleared;
    } else {
      var g := t.(guard := 1);
      var x := Report(s.overflow);
      FanOutReachesAll(w, g, x, 0, false);
      assert ClientSend(w, g, false, x) == Outcome(FanOut(w, g, x, 0, false).st, Ok);
      assert ClientSend(w, g, false, x).st.wire == s.wire + Copies(w, s.conns, m) + Copies(w, s.conns, x);
      assert AllCopies(w, s.conns, [x]) == Copies(w, s.conns, x);
      assert ([m] + [x])[1..] == [x];
      assert AllCopies(w, s.conns, [m] + [x]) == Copies(w, s.conns, m) + Copies(w, s.conns, x);
    }
  }

  /** What settling does while messages are buffered: the due report is stored and the counter cleared, or
      nothing is stored and no report is due any more. */
  predicate SettledInto(s: State, r: State, extra: seq<Msg>) {
    && Stores(r.mode) && SameClients(s, r) && r.wire == s.wire
    && r.ring == s.ring + extra
    && DueReport(r) == []
    && if extra == [] then r.cleared == s.cleared
       else extra == DueReport(s) && r.cleared == s.cleared + [s.overflow]
  }

  lemma {:induction false} SettleBuffers(w: World, s: State) returns (extra: seq<Msg>)
    requires Stores(s.mode)
    ensures SettledInto(s, Settle(w, s), extra)
  {
    var r := Settle(w, s);
    extra := [];
    if DueReport(s) != [] {
      var g := s.(guard := 1);
      SendWhileStoring(w, g, Report(s.overflow));
      if ClientSend(w, g, false, Report(s.overflow)).ret == Ok {
        extra := DueReport(s);
      }
    }
  }

  /** One round of the drain loop. */
  lemma {:induction false} ForcedReachesAll(w: World, s: State) returns (extra: seq<Msg>)
    requires SendsSucceed(w) && SomebodyListens(w, s.conns) && Stores(s.mode) && s.ring != []
    ensures var o := ClientSend(w, s, true, s.ring[0]);
      && o.ret == Ok
      && SettledInto(s.(wire := s.wire + Copies(w, s.conns, s.ring[0])), o.st, extra)
  {
    var m := s.ring[0];
    FanOutReachesAll(w, s, m, 0, false);
    CopiesExist(w, s.conns, m);
    assert s.conns[0..] == s.conns;
    var f := FanOut(w, s, m, 0, false);
    var j :| 0 <= j < |s.conns| && Eligible(w, s.conns[j]);
    assert ClientSend(w, s, true, m) == Outcome(Settle(w, f.st), Ok);
    extra := SettleBuffers(w, f.st);
  }

  /** What a drained history leaves: every block, and the report that was due, reached every admitted
      connection, in order; the buffer is empty and messages are sent directly from now on. */
  predicate DrainedInto(w: World, s: State, r: State, extra: seq<Msg>) {
    && r.mode == SendDirect && r.ring == [] && SameClients(s, r)
    && r.wire == s.wire + AllCopies(w, s.conns, s.ring + extra)
    && if extra == [] then r.cleared == s.cleared
       else extra == DueReport(s) && r.cleared == s.cleared + [s.overflow]
  }

  lemma {:induction false} DrainReachesAll(w: World, s: State) returns (extra: seq<Msg>)
    requires SendsSucceed(w) && SomebodyListens(w, s.conns) && Stores(s.mode)
    ensures var o := Drain(w, s); o.ret == Ok && DrainedInto(w, s, o.st, extra)
    decreases |s.conns|, ReportDue(s), |s.ring|
  {
    extra := [];
    if s.ring != [] {
      var o := ClientSend(w, s, true, s.ring[0]);
      ForcedProgress(w, s, s.ring[0]);
      extra := ForcedReachesAll(w, s);
      var t := o.st.(ring := o.st.ring[1..], mode := SendBuffer);
      var more := [];
      if t.ring != [] {
        more := DrainReachesAll(w, t);
        assert Drain(w, t) == DrainLoop(w, t);
      }
      DrainSteps(w, s, t, Drain(w, s).st, extra);
    }
  }

  lemma {:induction false} DrainSteps(w: World, s: State, t: State, r: State, extra: seq<Msg>)
    requires s.ring != []
    requires SettledInto(s.(wire := s.wire + Copies(w, s.conns, s.ring[0])), t.(ring := [s.ring[0]] + t.ring), extra)
    requires t.ring == [] ==> r == t.(mode := SendDirect)
    requires t.ring != [] ==> DrainedInto(w, t, r, [])
    ensures DrainedInto(w, s, r, extra)
  {
    var x := [s.ring[0]];
    var c := Copies(w, s.conns, s.ring[0]);
    assert s.ring + extra == x + t.ring;
    assert t.ring + [] == t.ring;
    AllCopiesSplit(w, s.conns, x, t.ring);
    assert x[1..] == [];
    assert AllCopies(w, s.conns, x) == c;
    assert r.wire == t.wire + AllCopies(w, s.conns, t.ring);
    hide AllCopies, Copies, Eligible;
    assert (s.wire + c) + AllCopies(w, s.conns, t.ring) == s.wire + (c + AllCopies(w, s.conns, t.ring));
  }

  /** The client counter is right, and plain buffering means that nobody is connected. */
  predicate Counted(s: State) {
    && NoSerial(s.conns) && s.clients == ClientCount(s.conns)
    && s.mode != Init && (s.mode == Buffer ==> s.clients == 0)
  }

  lemma {:induction false} UnregisterCounted(s: State, fd: int)
    requires Counted(s)
    ensures Counted(Unregister(s, fd))
  {
    var i := Find(s.conns, fd);
    if i < |s.conns| {
      CountWithout(s.conns, i);
    }
  }

  lemma {:induction false} ClientSendCounted(w: World, s: State, forced: bool, m: Msg)
    requires Counted(s)
    ensures Counted(ClientSend(w, s, forced, m).st)
    decreases |s.conns|, GuardOpen(s), 3, 0
  {
    var t := if Attempts(w, s, forced) then FanOut(w, s, m, 0, false).st else s;
    if Attempts(w, s, forced) {
      FanOutCounted(w, s, m, 0, false);
    }
    SettleCounted(w, t);
  }

  lemma {:induction false} SettleCounted(w: World, s: State)
    requires Counted(s)
    ensures Counted(Settle(w, s))
    decreases |s.conns|, GuardOpen(s), 2, 0
  {
    if s.overflow > 0 && s.clients > 0 && s.guard == 0 {
      ClientSendCounted(w, s.(guard := 1), false, Report(s.overflow));
    }
  }

  lemma {:induction false} FanOutCounted(w: World, s: State, m: Msg, i: nat, sent: bool)
    requires Counted(s)
    ensures Counted(FanOut(w, s, m, i, sent).st)
    decreases |s.conns|, GuardOpen(s), 1, |s.conns| - i
  {
    if i < |s.conns| {
      var c := s.conns[i];
      if !Eligible(w, c) {
        FanOutCounted(w, s, m, i + 1, sent);
      } else if w.sendOk(s.now, c.fd, m) {
        FanOutCounted(w, s.(now := s.now + 1, wire := s.wire + [Sent(c.fd, m)]), m, i + 1, true);
      } else {
        CloseCounted(w, s.(now := s.now + 1), c.fd);
        FanOutCounted(w, Close(w, s.(now := s.now + 1), c.fd), m, i + 1, sent);
      }
    }
  }

  lemma {:induction false} CloseCounted(w: World, s: State, fd: int)
    requires Counted(s)
    ensures Counted(Close(w, s, fd))
    decreases |Unregister(s, fd).conns|, GuardOpen(s), 4, 0
  {
    UnregisterCounted(s, fd);
    var u := Unregister(s, fd);
    var v := if u.clients == 0 && !w.serialDevice then u.(mode := Buffer) else u;
    ClientSendCounted(w, v, false, Info(false));
    var t := ClientSend(w, v, false, Info(false)).st;
    ClientSendCounted(w, t, false, Closed(fd, t.clients));
  }

  lemma {:induction false} DrainLoopCounted(w: World, s: State)
    requires Counted(s)
    ensures Counted(DrainLoop(w, s).st)
    decreases |s.conns|, ReportDue(s), |s.ring|
  {
    hide ClientSend;
    if s.ring != [] {
      ForcedProgress(w, s, s.ring[0]);
      ClientSendCounted(w, s, true, s.ring[0]);
      var o := ClientSend(w, s, true, s.ring[0]);
      if o.ret == Ok && |o.st.ring| > 1 {
        DrainLoopCounted(w, o.st.(ring := o.st.ring[1..], mode := SendBuffer));
      }
    }
  }

  lemma {:induction false} ClientUpdateCounted(w: World, s: State)
    requires Counted(s)
    ensures Counted(ClientUpdate(w, s))
  {
    DrainLoopCounted(w, s);
    var o := Drain(w, s).st;
    ClientSendCounted(w, o, false, Report(o.overflow));
  }

  /** A first client ends plain buffering at once. */
  lemma {:induction false} ConnectCounted(w: World, s: State, fd: int)
    requires Counted(s)
    ensures Counted(Connect(w, s, fd))
  {
    hide Settle, FanOut;
    var u := Greet(w, Register(s, fd), fd);
    CountSplit(s.conns, [Conn(fd, Tcp)]);
    assert ClientCount([Conn(fd, Tcp)]) == 1;
    var v := ClientSend(w, u, false, Opened(fd, u.clients)).st;
    if s.mode == Buffer {
      SendWhileStoring(w, u, Opened(fd, u.clients));
      StoreKeeps(w, u, Opened(fd, u.clients));
    } else {
      ClientSendCounted(w, u, false, Opened(fd, u.clients));
    }
    if v.clients == 1 {
      ClientUpdateCounted(w, v.(mode := SendBuffer));
    }
  }

  lemma {:induction false} StepCounted(w: World, tr: Trace, e: Event)
    requires Counted(tr.st)
    ensures Counted(Step(w, tr, e).st)
  {
    hide ClientSend, Close, Connect;
    var s := tr.st;
    match e
    case Submit(id) => ClientSendCounted(w, s, false, App(id));
    case Loss(n) => ClientSendCounted(w, s, false, AppReport(n));
    case Accept(fd) => ConnectCounted(w, s, fd);
    case HangUp(fd) => CloseCounted(w, s, fd);
    case Timer =>
      DrainLoopCounted(w, s);
      var t := if s.mode == SendBuffer || s.mode == BufferFull then Drain(w, s).st else s;
      ClientSendCounted(w, t, false, Time);
  }

  lemma {:induction false} RunCounted(w: World, tr: Trace, es: seq<Event>)
    requires Counted(tr.st)
    ensures Counted(Run(w, tr, es).st)
    decreases |es|
  {
    hide Counted, Step;
    if es != [] {
      StepCounted(w, tr, es[0]);
      RunCounted(w, Step(w, tr, es[0]), es[1..]);
    }
  }

  lemma {:induction false} StartCounted(w: World, conns: seq<Conn>)
    requires !w.serialDevice && ClientCount(conns) == 0
    ensures Counted(Start(w, conns))
  {
    forall i | 0 <= i < |conns| ensures conns[i].kind != Serial {
      if conns[i].kind == Serial {
        CountPositive(conns, i);
      }
    }
  }

  /** One timer event without failures: the history is gone and nobody was lost. */
  lemma {:induction false} TickCatchesUp(w: World, s: State)
    requires SendsSucceed(w) && w.tcp && !w.serialDevice
    requires Counted(s) && Inv(w, s) && s.clients > 0
    ensures var r := Tick(w, s); r.mode == SendDirect && r.ring == [] && SameClients(s, r)
  {
    var p := FirstClient(s.conns);
    assert Eligible(w, s.conns[p]);
    var t := s;
    if s.mode == SendBuffer || s.mode == BufferFull {
      var extra := DrainReachesAll(w, s);
      t := Drain(w, s).st;
    }
    SubmitReachesAll(w, t, Time);
  }

  /** Whatever happened before, with however many clients: once sends succeed, one second is enough for every
      connected client to have been sent the whole history. */
  lemma {:induction false} OneGoodSecond(w: World, conns: seq<Conn>, es: seq<Event>, v: World)
    requires w.tcp && !w.serialDevice
    requires DistinctFds(conns) && ClientCount(conns) == 0
    requires SameSetting(w, v) && SendsSucceed(v)
    ensures var s := Run(w, Trace(Start(w, conns), [], 0), es).st;
      s.clients > 0 ==> var r := Tick(v, s); r.mode == SendDirect && r.ring == [] && SameClients(s, r)
  {
    var tr := Trace(Start(w, conns), [], 0);
    StartCounted(w, conns);
    RunCounted(w, tr, es);
    RunInv(w, tr, es);
    var s := Run(w, tr, es).st;
    assert Inv(v, s);
    if s.clients > 0 {
      TickCatchesUp(v, s);
    }
  }

  /** A first client, if sends succeed, is greeted and then gets the whole history before anything else:
      nothing stays buffered, the counter of discarded messages is cleared, and messages are sent directly from
      now on. What is sent behind the history are no messages of applications. */
  lemma {:induction false} FirstClientServed(w: World, s: State, fd: int) returns (more: seq<Msg>)
    requires SendsSucceed(w) && w.tcp && !w.serialDevice
    requires Counted(s) && Inv(w, s) && s.clients == 0 && Find(s.conns, fd) == |s.conns|
    ensures var r := Connect(w, s, fd);
      && r.mode == SendDirect && r.ring == [] && r.overflow == 0
      && r.conns == s.conns + [Conn(fd, Tcp)] && r.clients == 1
      && r.wire == s.wire + [Sent(fd, Info(true))] + AllCopies(w, r.conns, s.ring + more)
      && AppIds(Messages(r.wire)) == AppIds(Messages(s.wire) + s.ring)
    ensures forall x :: x in more ==> !x.App?
  {
    hide *;
    FirstKeepsApps(w, s, fd);
    more := FirstGetsAll(w, s, fd);
    PlacedOnWire(Connect(w, s, fd), s);
  }

  lemma {:induction false} PlacedOnWire(r: State, s: State)
    requires r.ring == []
    ensures Placed(r) == Messages(r.wire) && Placed(s) == Messages(s.wire) + s.ring
  {
    assert Messages(r.wire) + [] == Messages(r.wire);
  }

  lemma {:induction false} FirstGetsAll(w: World, s: State, fd: int) returns (more: seq<Msg>)
    requires SendsSucceed(w) && w.tcp && !w.serialDevice
    requires Counted(s) && Inv(w, s) && s.clients == 0 && Find(s.conns, fd) == |s.conns|
    ensures var r := Connect(w, s, fd);
      && r.mode == SendDirect && r.ring == [] && r.overflow == 0
      && r.conns == s.conns + [Conn(fd, Tcp)] && r.clients == 1
      && r.wire == s.wire + [Sent(fd, Info(true))] + AllCopies(w, r.conns, s.ring + more)
    ensures forall x :: x in more ==> !x.App?
  {
    hide ClientUpdate, ClientSend, Connect, AllCopies, Copies, Inv, Counted, Find, SomebodyListens, SendsSucceed;
    var z, news := FirstAnnounced(w, s, fd);
    var last := UpdateServes(w, z);
    more := news + last;
    assert z.ring + last == s.ring + more;
  }

  lemma {:induction false} FirstKeepsApps(w: World, s: State, fd: int)
    requires w.tcp && !w.serialDevice && Counted(s) && Inv(w, s) && s.clients == 0
    ensures AppIds(Placed(Connect(w, s, fd))) == AppIds(Placed(s))
  {
    hide Connect;
    ConnectOne(w, s, fd);
  }

  /** Up to the moment when the history is sent. */
  lemma {:induction false} FirstAnnounced(w: World, s: State, fd: int) returns (z: State, news: seq<Msg>)
    requires SendsSucceed(w) && w.tcp && !w.serialDevice
    requires Counted(s) && Inv(w, s) && s.clients == 0 && Find(s.conns, fd) == |s.conns|
    ensures z.mode == SendBuffer && z.conns == s.conns + [Conn(fd, Tcp)] && z.clients == 1
    ensures SomebodyListens(w, z.conns)
    ensures z.wire == s.wire + [Sent(fd, Info(true))]
    ensures z.ring == s.ring + news && (news == [] || news == [Opened(fd, 1)])
    ensures Connect(w, s, fd) == ClientUpdate(w, z)
  {
    hide ClientUpdate, ClientSend;
    var u := Greet(w, Register(s, fd), fd);
    var m := Opened(fd, u.clients);
    SendWhileStoring(w, u, m);
    z := ClientSend(w, u, false, m).st.(mode := SendBuffer);
    news := z.ring[|s.ring|..];
    assert Eligible(w, z.conns[|s.conns|]);
  }

  lemma {:induction false} UpdateServes(w: World, s: State) returns (more: seq<Msg>)
    requires SendsSucceed(w) && Masked(w) && SomebodyListens(w, s.conns) && Stores(s.mode)
    ensures var r := ClientUpdate(w, s);
      && r.mode == SendDirect && r.ring == [] && r.overflow == 0 && SameClients(s, r)
      && r.wire == s.wire + AllCopies(w, s.conns, s.ring + more)
    ensures forall x :: x in more ==> x.Report?
  {
    hide Drain, ClientSend, AllCopies;
    var extra := DrainReachesAll(w, s);
    var t := Drain(w, s).st;
    SubmitReachesAll(w, t, Report(t.overflow));
    more := extra;
    if t.overflow > 0 {
      var news := [Report(t.overflow)] + DueReport(t);
      more := extra + news;
      AllCopiesSplit(w, s.conns, s.ring + extra, news);
      assert s.ring + more == (s.ring + extra) + news;
      assert ClientUpdate(w, s).wire == (s.wire + AllCopies(w, s.conns, s.ring + extra)) + AllCopies(w, s.conns, news);
    }
  }

  /** Two messages in a row while no report is due. */
  lemma {:induction false} TwoReachAll(w: World, s: State, a: Msg, b: Msg)
    requires Masked(w) && s.mode == SendDirect && DueReport(s) == []
    requires Takes(w, s.conns, a) && Takes(w, s.conns, b)
    ensures var t := ClientSend(w, s, false, a).st; var r := ClientSend(w, t, false, b).st;
      r == s.(wire := s.wire + AllCopies(w, s.conns, [a, b]), now := r.now)
  {
    hide ClientSend;
    SubmitReachesAll(w, s, a);
    var t := ClientSend(w, s, false, a).st;
    SubmitReachesAll(w, t, b);
    assert [a] + [] == [a] && [b] + [] == [b] && [a] + [b] == [a, b];
    AllCopiesSplit(w, s.conns, [a], [b]);
    assert (s.wire + AllCopies(w, s.conns, [a])) + AllCopies(w, s.conns, [b])
        == s.wire + (AllCopies(w, s.conns, [a]) + AllCopies(w, s.conns, [b]));
  }

  /** When a client leaves, everybody who stays is told so, and the daemon goes on sending directly. */
  lemma {:induction false} LeavingIsTold(w: World, s: State, fd: int)
    requires Masked(w) && s.mode == SendDirect && DueReport(s) == []
    requires var u := Unregister(s, fd);
      (u.clients > 0 || w.serialDevice) && Takes(w, u.conns, Info(false)) && Takes(w, u.conns, Closed(fd, u.clients))
    ensures var u := Unregister(s, fd); var r := Close(w, s, fd);
      r == u.(wire := s.wire + AllCopies(w, u.conns, [Info(false), Closed(fd, u.clients)]), now := r.now)
  {
    var u := Unregister(s, fd);
    SubmitReachesAll(w, u, Info(false));
    TwoReachAll(w, u, Info(false), Closed(fd, u.clients));
  }

  /** A further client is greeted alone; then all, the new one too, are told about it. */
  lemma {:induction false} FurtherClientIsTold(w: World, s: State, fd: int)
    requires w.tcp && s.mode == SendDirect && DueReport(s) == []
    requires s.clients > 0 && Find(s.conns, fd) == |s.conns|
    requires Takes(w, s.conns + [Conn(fd, Tcp)], Opened(fd, s.clients + 1))
    ensures var r := Connect(w, s, fd); var cs := s.conns + [Conn(fd, Tcp)];
      var greeting := if w.sendOk(s.now, fd, Info(true)) then [Sent(fd, Info(true))] else [];
      r == s.(wire := s.wire + greeting + Copies(w, cs, Opened(fd, s.clients + 1)),
              conns := cs, clients := s.clients + 1, now := r.now)
  {
    var u := Greet(w, Register(s, fd), fd);
    var m := Opened(fd, u.clients);
    SubmitReachesAll(w, u, m);
    assert [m] + [] == [m] && [m][1..] == [];
    assert s.wire + [] == s.wire;
    assert AllCopies(w, u.conns, [m]) == Copies(w, u.conns, m);
  }

  /** A descriptor that is registered already is greeted and announced again, and nothing else happens. */
  lemma {:induction false} KnownClientIsTold(w: World, s: State, fd: int)
    requires Masked(w) && s.mode == SendDirect && DueReport(s) == []
    requires s.clients > 1 && Find(s.conns, fd) < |s.conns| && Takes(w, s.conns, Opened(fd, s.clients))
    ensures var r := Connect(w, s, fd);
      var greeting := if w.sendOk(s.now, fd, Info(true)) then [Sent(fd, Info(true))] else [];
      r == s.(wire := s.wire + greeting + Copies(w, s.conns, Opened(fd, s.clients)), now := r.now)
  {
    var u := Greet(w, s, fd);
    var m := Opened(fd, s.clients);
    SubmitReachesAll(w, u, m);
    assert [m] + [] == [m] && [m][1..] == [];
    assert s.wire + [] == s.wire;
    assert AllCopies(w, u.conns, [m]) == Copies(w, u.conns, m);
  }

  /** The timer sends nothing but the timing packet while messages are sent directly. */
  lemma {:induction false} TickSendsTime(w: World, s: State)
    requires Masked(w) && s.mode == SendDirect && DueReport(s) == [] && Takes(w, s.conns, Time)
    ensures var r := Tick(w, s);
      r == s.(wire := s.wire + (if w.timing then Copies(w, s.conns, Time) else []), now := r.now)
  {
    SubmitReachesAll(w, s, Time);
    assert [Time] + [] == [Time] && [Time][1..] == [];
    assert AllCopies(w, s.conns, [Time]) == Copies(w, s.conns, Time);
    assert s.wire + [] == s.wire;
  }
}

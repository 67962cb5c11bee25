/** What a filter mask with neither TCP nor serial changes. */
module DeliveryMask {
  import opened Delivery
  import opened DeliveryInvariant
  import opened DeliveryOneClient
  import opened DeliveryManyClients
  import opened DeliveryRuns

  /** With neither TCP nor serial in the filter mask a forced send succeeds without sending, so draining
      throws the whole history away. */
  lemma {:induction false} DrainWithoutMask(w: World, s: State)
    requires !Masked(w) && Stores(s.mode)
    ensures var o := Drain(w, s);
      && o.ret == Ok && o.st.mode == SendDirect && o.st.ring == []
      && SameClients(s, o.st) && o.st.wire == s.wire
    decreases |s.conns|, ReportDue(s), |s.ring|
  {
    if s.ring != [] {
      var o := ClientSend(w, s, true, s.ring[0]);
      ForcedProgress(w, s, s.ring[0]);
      SettleWhileStoring(w, s);
      var r := Drained(s, o.st);
      if r.ring != [] {
        DrainWithoutMask(w, r);
        assert Drain(w, r) == DrainLoop(w, r);
      }
    }
  }

  /** The same setting with a buffer that takes one message. */
  function TinyBuffer(w: World): World {
    w.(pushOk := (t: nat, m: Msg) => false)
  }

  /** Two messages and one second, without any client. */
  const TWO_AND_A_SECOND: seq<Event> := [Submit(0), Submit(1), Timer]

  lemma {:induction false} ThreeSteps(w: World, tr: Trace)
    ensures Run(w, tr, TWO_AND_A_SECOND) == Step(w, Step(w, Step(w, tr, Submit(0)), Submit(1)), Timer)
  {
    hide Step;
    var es := TWO_AND_A_SECOND;
    assert es[1..] == [Submit(1), Timer] && es[1..][1..] == [Timer] && es[1..][1..][1..] == [];
  }

  /** The first message is stored, the second one is refused. */
  lemma {:induction false} SecondRefused(w: World, conns: seq<Conn>)
    requires !w.serialDevice && ClientCount(conns) == 0
    ensures var v := TinyBuffer(w);
      var s := Step(v, Step(v, Trace(Start(v, conns), [], 0), Submit(0)), Submit(1)).st;
      s.mode == BufferFull && s.clients == 0 && s.wire == []
  {
    var v := TinyBuffer(w);
    var tr := Trace(Start(v, conns), [], 0);
    var a := Step(v, tr, Submit(0));
    SendWhileStoring(v, tr.st, App(0));
    assert a.st.mode == Buffer && a.st.ring == [App(0)] && a.st.clients == 0 && a.st.wire == [];
    SendWhileStoring(v, a.st, App(1));
    hide FanOut, Settle;
  }

  /** A tick without clients, then. */
  lemma {:induction false} TickWithoutMask(w: World, s: State)
    requires !Masked(w) && s.mode == BufferFull && s.clients == 0
    ensures var r := Tick(w, s); r.mode == SendDirect && r.clients == 0 && r.wire == s.wire && r.ring == []
  {
    DrainWithoutMask(w, s);
    var t := Drain(w, s).st;
    assert ClientSend(w, t, false, Time) == Outcome(Settle(w, t), Ok);
    assert Settle(w, t) == t;
  }

  lemma {:induction false} DirectWithoutClients(w: World, conns: seq<Conn>)
    requires !Masked(w) && !w.serialDevice && ClientCount(conns) == 0
    ensures var v := TinyBuffer(w); var s := Run(v, Trace(Start(v, conns), [], 0), TWO_AND_A_SECOND).st;
      s.mode == SendDirect && s.clients == 0 && s.wire == [] && s.ring == []
  {
    hide ClientSend, Tick, Start, Run;
    var v := TinyBuffer(w);
    var tr := Trace(Start(v, conns), [], 0);
    ThreeSteps(v, tr);
    SecondRefused(w, conns);
    TickWithoutMask(v, Step(v, Step(v, tr, Submit(0)), Submit(1)).st);
  }

  /** Sending means that somebody is connected. */
  predicate Heard(w: World, conns: seq<Conn>, es: seq<Event>) {
    var s := Run(w, Trace(Start(w, conns), [], 0), es).st;
    s.mode == SendBuffer || s.mode == SendDirect ==> s.clients > 0
  }

  /** Without a serial device, in every state of every run from the start, whatever the environment does, both
      sending states imply a client, if and only if the filter mask has TCP or serial. */
  lemma {:induction false} HeardIffMasked(w: World, conns: seq<Conn>)
    requires !w.serialDevice && DistinctFds(conns) && ClientCount(conns) == 0
    ensures (forall v: World, es: seq<Event> :: SameSetting(w, v) ==> Heard(v, conns, es)) <==> Masked(w)
  {
    if Masked(w) {
      forall v: World, es: seq<Event> | SameSetting(w, v) ensures Heard(v, conns, es) {
        RunInv(v, Trace(Start(v, conns), [], 0), es);
      }
    } else {
      DirectWithoutClients(w, conns);
      assert SameSetting(w, TinyBuffer(w)) && !Heard(TinyBuffer(w), conns, TWO_AND_A_SECOND);
    }
  }

  // ---- what a successful drain means

  /** The loop over the clients only adds copies of the message, and somebody took it if there is one. */
  lemma {:induction false} FanOutGives(w: World, s: State, m: Msg, i: nat, sent: bool)
    requires Stores(s.mode)
    ensures var r := FanOut(w, s, m, i, sent);
      && Stores(r.st.mode) && s.wire <= r.st.wire
      && (forall j :: |s.wire| <= j < |r.st.wire| ==> r.st.wire[j].msg == m)
      && (r.sent <==> sent || |s.wire| < |r.st.wire|)
    decreases |s.conns|, |s.conns| - i
  {
    hide Close, ClientSend;
    if i < |s.conns| {
      var c := s.conns[i];
      var t := s.(now := s.now + 1);
      if !Eligible(w, c) {
        FanOutGives(w, s, m, i + 1, sent);
      } else if w.sendOk(s.now, c.fd, m) {
        FanOutGives(w, t.(wire := s.wire + [Sent(c.fd, m)]), m, i + 1, true);
      } else if c.kind == Tcp {
        CloseWhileStoring(w, t, c.fd);
        FanOutGives(w, Close(w, t, c.fd), m, i + 1, sent);
      } else {
        FanOutGives(w, t, m, i + 1, sent);
      }
    }
  }

  /** Somebody was sent each of the messages, in their order. */
  predicate GivenInOrder(ms: seq<Msg>, sent: seq<Sent>) {
    ms != [] ==> exists j :: 0 <= j < |sent| && sent[j].msg == ms[0] && GivenInOrder(ms[1..], sent[j + 1..])
  }

  /** More may have been sent before, and more messages may have been due. */
  lemma {:induction false} GivenMore(ms: seq<Msg>, more: seq<Msg>, before: seq<Sent>, sent: seq<Sent>)
    requires GivenInOrder(ms + more, sent)
    ensures GivenInOrder(ms, before + sent)
    decreases |ms|
  {
    if ms != [] {
      var j :| 0 <= j < |sent| && sent[j].msg == (ms + more)[0] && GivenInOrder((ms + more)[1..], sent[j + 1..]);
      assert (ms + more)[1..] == ms[1..] + more;
      GivenMore(ms[1..], more, [], sent[j + 1..]);
      assert [] + sent[j + 1..] == sent[j + 1..] == (before + sent)[|before| + j + 1..];
      assert (before + sent)[|before| + j].msg == ms[0];
    }
  }

  /** All blocks that were buffered. */
  predicate AllGiven(s: State, r: State) {
    s.wire <= r.wire && GivenInOrder(s.ring, r.wire[|s.wire|..])
  }

  lemma {:induction false} ForcedGives(w: World, s: State)
    requires Masked(w) && Stores(s.mode) && s.ring != []
    ensures var o := ClientSend(w, s, true, s.ring[0]);
      && Stores(o.st.mode) && s.wire <= o.st.wire
      && (o.ret == Ok ==> |s.wire| < |o.st.wire| && o.st.wire[|s.wire|].msg == s.ring[0])
  {
    FanOutGives(w, s, s.ring[0], 0, false);
    var f := FanOut(w, s, s.ring[0], 0, false);
    SettleWhileStoring(w, f.st);
  }

  /** One block was given to somebody, then all others. */
  lemma {:induction false} GivenStep(s: State, t: State, r: State)
    requires s.ring != [] && s.wire <= t.wire && |s.wire| < |t.wire| && t.wire[|s.wire|].msg == s.ring[0]
    requires s.ring[1..] <= t.ring && AllGiven(t, r)
    ensures AllGiven(s, r)
  {
    hide GivenInOrder;
    var n := |s.wire|;
    var rest := r.wire[|t.wire|..];
    var more := t.ring[|s.ring| - 1..];
    assert t.ring == s.ring[1..] + more;
    GivenMore(s.ring[1..], more, t.wire[n + 1..], rest);
    JoinedWire(t.wire, r.wire, n);
    GivenFirst(s.ring, r.wire[n..]);
  }

  lemma {:induction false} JoinedWire(a: seq<Sent>, b: seq<Sent>, n: nat)
    requires a <= b && n < |a|
    ensures b[n..][1..] == a[n + 1..] + b[|a|..] && b[n..][0] == a[n]
  {
    assert b == a + b[|a|..];
  }

  lemma {:induction false} GivenFirst(ms: seq<Msg>, sent: seq<Sent>)
    requires ms != [] && sent != [] && sent[0].msg == ms[0] && GivenInOrder(ms[1..], sent[1..])
    ensures GivenInOrder(ms, sent)
  {
  }

  lemma {:induction false} NothingToGive(s: State)
    requires s.ring == []
    ensures AllGiven(s, s)
  {
  }

  lemma {:induction false} DrainGives(w: World, s: State)
    requires Masked(w) && Stores(s.mode)
    ensures var o := Drain(w, s); o.ret == Ok ==> AllGiven(s, o.st)
    decreases |s.conns|, ReportDue(s), |s.ring|
  {
    hide ClientSend, GivenInOrder;
    if s.ring == [] {
      assert GivenInOrder([], s.wire[|s.wire|..]) by { NothingToGive(s); }
    } else {
      var o := ClientSend(w, s, true, s.ring[0]);
      ForcedProgress(w, s, s.ring[0]);
      ForcedGives(w, s);
      if o.ret == Ok {
        var t := o.st.(ring := o.st.ring[1..], mode := SendBuffer);
        if t.ring != [] {
          DrainGives(w, t);
          assert Drain(w, t) == DrainLoop(w, t);
        } else {
          NothingToGive(t.(mode := SendDirect));
          assert AllGiven(t, t.(mode := SendDirect)) by { GivenSame(t); }
        }
        assert s.ring <= o.st.ring;
        if Drain(w, s).ret == Ok {
          GivenStep(s, t, Drain(w, s).st);
        }
      }
    }
  }

  lemma {:induction false} GivenSame(t: State)
    requires t.ring == []
    ensures AllGiven(t, t.(mode := SendDirect))
  {
  }

  /** Draining means something: whatever the state and the environment, a drain that answers OK has given every
      buffered block to somebody, in order, if and only if the filter mask has TCP or serial. */
  lemma {:induction false} DrainGivesIffMasked(w: World)
    ensures (forall v: World, s: State :: SameSetting(w, v) && Stores(s.mode) && Drain(v, s).ret == Ok ==>
               AllGiven(s, Drain(v, s).st))
      <==> Masked(w)
  {
    if Masked(w) {
      forall v: World, s: State | SameSetting(w, v) && Stores(s.mode) && Drain(v, s).ret == Ok
        ensures AllGiven(s, Drain(v, s).st)
      {
        DrainGives(v, s);
      }
    } else {
      var s := State(SendBuffer, 0, 0, [App(0)], [], 0, [], [], 0, [], 0);
      DrainWithoutMask(w, s);
      hide Drain;
      assert SameSetting(w, w) && !AllGiven(s, Drain(w, s).st);
    }
  }
}

/** Whole runs of the daemon. */
module DeliveryRuns {
  import opened Delivery
  import opened DeliveryInvariant
  import opened DeliveryOneClient
  import opened DeliveryLosses

  datatype Event =
    | Submit(id: nat)          // an application message arrives
    | Loss(count: nat)         // an application reports its own losses
    | Accept(fd: int)          // a log client connects
    | HangUp(fd: int)          // a polled descriptor hangs up
    | Timer                    // one second passed

  datatype Entry = Entry(id: nat, ret: Ret)

  /** The state, what the daemon answered for each application message, and how many losses that
      applications reported could not be forwarded. */
  datatype Trace = Trace(st: State, log: seq<Entry>, untold: nat)

  /** The start of event handling: nobody is connected. */
  function Start(w: World, conns: seq<Conn>): State {
    State(if w.serialDevice then SendDirect else Buffer, 0, 0, [], conns, ClientCount(conns), [], [], 0, [], 0)
  }

  function Step(w: World, tr: Trace, e: Event): Trace {
    match e
    case Submit(id) =>
      var o := ClientSend(w, tr.st, false, App(id));
      tr.(st := o.st, log := tr.log + [Entry(id, o.ret)])
    case Loss(n) =>
      tr.(st := AppLoss(w, tr.st, n),
          untold := tr.untold + if ClientSend(w, tr.st, false, AppReport(n)).ret == Ok then 0 else n)
    case Accept(fd) => tr.(st := Connect(w, tr.st, fd))
    case HangUp(fd) => tr.(st := Close(w, tr.st, fd))
    case Timer => tr.(st := Tick(w, tr.st))
  }

  function Run(w: World, tr: Trace, es: seq<Event>): Trace
    decreases |es|
  {
    if es == [] then tr else Run(w, Step(w, tr, es[0]), es[1..])
  }

  /** The messages the daemon took, in the order of submission. */
  function Accepted(log: seq<Entry>): seq<nat> {
    if log == [] then []
    else Accepted(log[..|log| - 1]) + (if log[|log| - 1].ret == Ok then [log[|log| - 1].id] else [])
  }

  /** The messages it refused, in the order of submission. */
  function Refused(log: seq<Entry>): seq<nat> {
    if log == [] then []
    else Refused(log[..|log| - 1]) + (if log[|log| - 1].ret == Full then [log[|log| - 1].id] else [])
  }

  function Submitted(log: seq<Entry>): seq<nat> {
    if log == [] then [] else Submitted(log[..|log| - 1]) + [log[|log| - 1].id]
  }

  /** A client is accepted only while no client is connected. */
  predicate OneAtATime(w: World, tr: Trace, es: seq<Event>)
    decreases |es|
  {
    es != [] ==>
      (es[0].Accept? ==> tr.st.clients == 0) && OneAtATime(w, Step(w, tr, es[0]), es[1..])
  }

  /** What holds of every trace with one client at a time. */
  predicate Faithful(w: World, tr: Trace) {
    && One(w, tr.st)
    && AppIds(Placed(tr.st)) == Accepted(tr.log)
    && Covered(tr.st)
  }

  lemma {:induction false} StepInv(w: World, tr: Trace, e: Event)
    requires Inv(w, tr.st)
    ensures Inv(w, Step(w, tr, e).st)
  {
    match e
    case Submit(id) => ClientSendInv(w, tr.st, false, App(id));
    case Loss(n) => AppLossInv(w, tr.st, n);
    case Accept(fd) => ConnectInv(w, tr.st, fd);
    case HangUp(fd) => CloseInv(w, tr.st, fd);
    case Timer => TickInv(w, tr.st);
  }

  /** For any number of clients and any run: sending directly means the history is gone, being full means
      there is some, and no discarded message is forgotten; if the filter mask has TCP or serial, sending
      means that a client is connected. */
  lemma {:induction false} RunInv(w: World, tr: Trace, es: seq<Event>)
    requires Inv(w, tr.st)
    ensures var s := Run(w, tr, es).st;
      && Inv(w, s)
      && (s.mode == SendDirect ==> s.ring == [])
      && (s.mode == BufferFull ==> s.ring != [])
      && (Masked(w) && !w.serialDevice && (s.mode == SendBuffer || s.mode == SendDirect) ==> s.clients > 0)
      && s.lost == Sum(s.cleared) + s.overflow
    decreases |es|
  {
    if es != [] {
      StepInv(w, tr, es[0]);
      RunInv(w, Step(w, tr, es[0]), es[1..]);
    }
  }

  lemma {:induction false} LogAppend(log: seq<Entry>, x: Entry)
    ensures Accepted(log + [x]) == Accepted(log) + (if x.ret == Ok then [x.id] else [])
    ensures Refused(log + [x]) == Refused(log) + (if x.ret == Full then [x.id] else [])
    ensures Submitted(log + [x]) == Submitted(log) + [x.id]
  {
    assert (log + [x])[..|log|] == log;
  }

  lemma {:induction false} StepFaithful(w: World, tr: Trace, e: Event)
    requires Faithful(w, tr) && (e.Accept? ==> tr.st.clients == 0)
    ensures Faithful(w, Step(w, tr, e))
  {
    match e
    case Submit(id) =>
      SubmitFaithful(w, tr, id);
    case Loss(n) => AppLossOne(w, tr.st, n);
    case Accept(fd) => ConnectOne(w, tr.st, fd);
    case HangUp(fd) => DropOne(w, tr.st, fd);
    case Timer => TickOne(w, tr.st);
  }

  lemma {:induction false} SubmitFaithful(w: World, tr: Trace, id: nat)
    requires Faithful(w, tr)
    ensures Faithful(w, Step(w, tr, Submit(id)))
  {
    var o := ClientSend(w, tr.st, false, App(id));
    SendOne(w, tr.st, App(id));
    ClientSendInv(w, tr.st, false, App(id));
    LogAppend(tr.log, Entry(id, o.ret));
    assert AppIds([App(id)]) == [id] + AppIds([App(id)][1..]);
  }

  /** Over every run from the start with one TCP client at a time and whatever the environment does:
      the application messages sent completely, followed by those still buffered, are exactly the ones the
      daemon accepted, each once and in order; all others were refused, in order; the refused messages and the
      losses that could not be forwarded are exactly what was cleared and what the counter holds; and every
      counter value that was cleared stands in a report of its own that was sent or is buffered. */
  lemma {:induction false} ExactlyOnceInOrder(w: World, conns: seq<Conn>, es: seq<Event>)
    requires w.tcp && !w.serialDevice
    requires DistinctFds(conns) && ClientCount(conns) == 0
    requires OneAtATime(w, Trace(Start(w, conns), [], 0), es)
    ensures var tr := Run(w, Trace(Start(w, conns), [], 0), es);
      && AppIds(Messages(tr.st.wire)) + AppIds(tr.st.ring) == Accepted(tr.log)
      && AppIds(tr.st.refused) == Refused(tr.log)
      && multiset(Submitted(tr.log)) == multiset(Accepted(tr.log)) + multiset(Refused(tr.log))
      && |tr.st.refused| + tr.untold == tr.st.lost == Sum(tr.st.cleared) + tr.st.overflow
      && multiset(tr.st.cleared) <= Reported(Messages(tr.st.wire) + tr.st.ring)
  {
    forall i | 0 <= i < |conns| ensures conns[i].kind != Serial {
      if conns[i].kind == Serial {
        CountPositive(conns, i);
      }
    }
    var tr := Trace(Start(w, conns), [], 0);
    assert Placed(tr.st) == [];
    RunFaithful(w, tr, es);
    RunLosses(w, tr, es);
    var r := Run(w, tr, es);
    AcceptedOrRefused(r.log);
    AppIdsSplit(Messages(r.st.wire), r.st.ring);
  }

  lemma {:induction false} RunFaithful(w: World, tr: Trace, es: seq<Event>)
    requires Faithful(w, tr) && OneAtATime(w, tr, es)
    ensures Faithful(w, Run(w, tr, es))
    decreases |es|
  {
    if es != [] {
      StepFaithful(w, tr, es[0]);
      RunFaithful(w, Step(w, tr, es[0]), es[1..]);
    }
  }

  /** What holds of the refused messages of every trace, for any number of clients. */
  predicate LossesRight(tr: Trace) {
    && AppIds(tr.st.refused) == Refused(tr.log) && |tr.st.refused| + tr.untold == tr.st.lost
    && forall i :: 0 <= i < |tr.log| ==> tr.log[i].ret != SendFailed
  }

  lemma {:induction false} StepLosses(w: World, tr: Trace, e: Event)
    requires LossesRight(tr)
    ensures LossesRight(Step(w, tr, e))
  {
    assert AppIds(tr.st.refused) + [] == AppIds(tr.st.refused);
    hide ClientSend, AppLoss, Connect, Close, Tick;
    match e
    case Submit(id) =>
      var o := ClientSend(w, tr.st, false, App(id));
      ClientSendLoses(w, tr.st, false, App(id));
      LogAppend(tr.log, Entry(id, o.ret));
      assert AppIds([App(id)]) == [id] + AppIds([App(id)][1..]);
      assert [id] + AppIds([App(id)][1..]) == [id];
    case Loss(n) => AppLossLoses(w, tr.st, n);
    case Accept(fd) => ConnectLoses(w, tr.st, fd);
    case HangUp(fd) => CloseLoses(w, tr.st, fd);
    case Timer => TickLoses(w, tr.st);
  }

  /** For any number of clients and any run the refused messages are exactly those for which the daemon
      answered that the buffer is full, and everything ever counted is a refused message or a loss that an
      application reported and that could not be forwarded. */
  lemma {:induction false} RunLosses(w: World, tr: Trace, es: seq<Event>)
    requires LossesRight(tr)
    ensures LossesRight(Run(w, tr, es))
    decreases |es|
  {
    hide LossesRight, Step;
    if es != [] {
      StepLosses(w, tr, es[0]);
      RunLosses(w, Step(w, tr, es[0]), es[1..]);
    }
  }

  /** Each submitted message is accepted or refused: the two together, each in order, are all of them. */
  lemma {:induction false} AcceptedOrRefused(log: seq<Entry>)
    requires forall i :: 0 <= i < |log| ==> log[i].ret != SendFailed
    ensures multiset(Submitted(log)) == multiset(Accepted(log)) + multiset(Refused(log))
  {
    if log != [] {
      AcceptedOrRefused(log[..|log| - 1]);
    }
  }
}

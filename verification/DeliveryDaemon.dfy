/** The daemon object: its methods update the fields in place, loop over the polled table and over the
    ring buffer, and call each other; each is proved to compute the function of module Delivery. */
module DeliveryDaemon {
  import opened Delivery
  import Spec = Delivery

  class Daemon {
    const w: World
    var mode: Mode
    var overflow: nat
    var guard: nat
    var ring: seq<Msg>
    var conns: seq<Conn>
    var clients: nat
    var now: nat
    ghost var wire: seq<Sent>
    ghost var cleared: seq<nat>
    ghost var lost: nat
    ghost var refused: seq<Msg>

    ghost function View(): State
      reads this
    {
      State(mode, overflow, guard, ring, conns, clients, wire, cleared, lost, refused, now)
    }

    constructor (w: World, conns: seq<Conn>, clients: nat)
      ensures this.w == w
      ensures View() == State(if w.serialDevice then SendDirect else Buffer, 0, 0, [], conns, clients, [], [], 0, [], 0)
    {
      this.w := w;
      mode := if w.serialDevice then SendDirect else Buffer;
      overflow, guard, ring, now := 0, 0, [], 0;
      this.conns, this.clients := conns, clients;
      wire, cleared, lost, refused := [], [], 0, [];
    }

    method SendTo(fd: int, m: Msg) returns (ok: bool)
      modifies this`now, this`wire
      ensures ok == w.sendOk(old(now), fd, m)
      ensures View() == old(View()).(now := old(now) + 1, wire := if ok then old(wire) + [Sent(fd, m)] else old(wire))
    {
      ok := w.sendOk(now, fd, m);
      now := now + 1;
      if ok {
        wire := wire + [Sent(fd, m)];
      }
    }

    /** A failed push leaves the buffer as it was. */
    method Push(m: Msg) returns (ok: bool)
      modifies this`ring, this`now
      ensures ok == Fits(w, old(View()), m)
      ensures View() == old(View()).(now := old(now) + 1, ring := if ok then old(ring) + [m] else old(ring))
    {
      ok := ring == [] || w.pushOk(now, m);
      now := now + 1;
      if ok {
        ring := ring + [m];
      }
    }

    /** One round of the fan-out, for the connection at index i. */
    method SendToNext(m: Msg, i: nat, ghost sent: bool) returns (taken: bool)
      requires i < |conns|
      modifies this
      ensures Spec.FanOut(w, View(), m, i + 1, sent || taken) == Spec.FanOut(w, old(View()), m, i, sent)
      ensures |conns| < |old(conns)| || (|conns| == |old(conns)| && guard == old(guard))
      decreases |conns|, GuardOpen(View()), 1
    {
      taken := false;
      var c := conns[i];
      if Eligible(w, c) {
        ghost var s := View();
        taken := SendTo(c.fd, m);
        if !taken && c.kind == Tcp {
          assert View() == s.(now := s.now + 1);
          Close(c.fd);
          assert Spec.FanOut(w, s, m, i, sent) == Spec.FanOut(w, View(), m, i + 1, sent);
        } else {
          assert taken ==> Spec.FanOut(w, s, m, i, sent) == Spec.FanOut(w, View(), m, i + 1, true);
          assert !taken ==> Spec.FanOut(w, s, m, i, sent) == Spec.FanOut(w, View(), m, i + 1, sent);
        }
      }
    }

    method SendToAll(m: Msg) returns (sent: bool)
      modifies this
      ensures Fan(View(), sent) == Spec.FanOut(w, old(View()), m, 0, false)
      decreases |conns|, GuardOpen(View()), 2
    {
      sent := false;
      var i := 0;
      while i < |conns|
        invariant Spec.FanOut(w, View(), m, i, sent) == Spec.FanOut(w, old(View()), m, 0, false)
        invariant |conns| < |old(conns)| || (|conns| == |old(conns)| && guard == old(guard))
        decreases |conns|, |conns| - i
      {
        var taken := SendToNext(m, i, sent);
        sent := sent || taken;
        i := i + 1;
      }
    }

    method ClientSend(forced: bool, m: Msg) returns (ret: Ret)
      modifies this
      ensures Outcome(View(), ret) == Spec.ClientSend(w, old(View()), forced, m)
      decreases |conns|, GuardOpen(View()), 4
    {
      hide Spec.FanOut, Settle, Store;
      ghost var s := View();
      ghost var f := Fan(s, false);
      if (w.tcp || w.serial) && (forced || mode == SendDirect) {
        var sent := SendToAll(m);
        f := Spec.FanOut(w, s, m, 0, false);
        if forced && !sent {
          return SendFailed;
        }
      }
      assert View() == f.st;
      assert Spec.ClientSend(w, s, forced, m) ==
        if !forced && Stores(f.st.mode) then Store(w, f.st, m) else Outcome(Settle(w, f.st), Ok);
      if !forced && (mode == Buffer || mode == SendBuffer || mode == BufferFull) {
        ret := StoreMessage(m);
      } else {
        SettleOverflow();
        ret := Ok;
      }
    }

    method StoreMessage(m: Msg) returns (ret: Ret)
      modifies this
      ensures Outcome(View(), ret) == Store(w, old(View()), m)
    {
      if mode != BufferFull {
        var ok := Push(m);
        if !ok {
          mode := BufferFull;
        }
      }
      if mode == BufferFull {
        overflow, lost, refused := overflow + 1, lost + 1, refused + [m];
        return Full;
      }
      return Ok;
    }

    method SettleOverflow()
      modifies this
      ensures View() == Spec.Settle(w, old(View()))
      decreases |conns|, GuardOpen(View()), 3
    {
      if overflow > 0 && clients > 0 {
        guard := guard + 1;
        if guard >= 2 {
          guard := guard - 1;
        } else {
          var ret := ClientSend(false, Report(overflow));
          if ret == Ok {
            cleared := cleared + [overflow];
            overflow := 0;
            guard := guard - 1;
          }
        }
      }
    }

    method UnregisterConnection(fd: int)
      modifies this`conns, this`clients
      ensures View() == Unregister(old(View()), fd)
    {
      var i := 0;
      while i < |conns| && conns[i].fd != fd
        invariant i <= |conns| && forall j :: 0 <= j < i ==> conns[j].fd != fd
      {
        i := i + 1;
      }
      if i < |conns| {
        if conns[i].kind != Other && clients > 0 {
          clients := clients - 1;
        }
        conns := conns[..i] + conns[i + 1..];
      }
    }

    method Close(fd: int)
      modifies this
      ensures View() == Spec.Close(w, old(View()), fd)
      decreases |Unregister(View(), fd).conns|, GuardOpen(View()), 5
    {
      UnregisterConnection(fd);
      if clients == 0 && !w.serialDevice {
        mode := Buffer;
      }
      var _ := ClientSend(false, Info(false));
      var _ := ClientSend(false, Closed(fd, clients));
    }

    method SendRingbuffer() returns (ret: Ret)
      modifies this
      ensures Outcome(View(), ret) == Spec.Drain(w, old(View()))
    {
      if |ring| == 0 {
        mode := SendDirect;
        return Ok;
      }
      while |ring| > 0
        invariant |ring| > 0 && Spec.DrainLoop(w, View()) == Spec.Drain(w, old(View()))
        decreases |conns|, ReportDue(View()), |ring|
      {
        var data := ring[0];
        ForcedProgress(w, View(), data);
        ret := ClientSend(true, data);
        if ret != Ok {
          return;
        }
        ring := ring[1..];
        if mode != SendBuffer {
          mode := SendBuffer;
        }
        if |ring| == 0 {
          mode := SendDirect;
          return Ok;
        }
      }
      return Ok;
    }

    method UpdateClient()
      modifies this
      ensures View() == Spec.ClientUpdate(w, old(View()))
    {
      var ret := SendRingbuffer();
      if ret == Ok && overflow > 0 {
        ret := ClientSend(false, Report(overflow));
        if ret == Ok {
          cleared := cleared + [overflow];
          overflow := 0;
        }
      }
    }

    method RegisterConnection(fd: int)
      modifies this`conns, this`clients
      ensures View() == Register(old(View()), fd)
    {
      var i := 0;
      while i < |conns| && conns[i].fd != fd
        invariant i <= |conns| && forall j :: 0 <= j < i ==> conns[j].fd != fd
      {
        i := i + 1;
      }
      if i == |conns| {
        clients := clients + 1;
        conns := conns + [Conn(fd, Tcp)];
      }
    }

    method ProcessClientConnect(fd: int)
      modifies this
      ensures View() == Spec.Connect(w, old(View()), fd)
    {
      hide Spec.ClientSend, Spec.ClientUpdate, Register;
      RegisterConnection(fd);
      var _ := SendTo(fd, Info(true));
      var _ := ClientSend(false, Opened(fd, clients));
      if clients == 1 {
        mode := SendBuffer;
        UpdateClient();
      }
    }

    method ProcessTimer()
      modifies this
      ensures View() == Spec.Tick(w, old(View()))
    {
      if mode == SendBuffer || mode == BufferFull {
        var _ := SendRingbuffer();
      }
      if w.timing && mode == SendDirect {
        var _ := ClientSend(false, Time);
      }
    }

    method ProcessOverflow(count: nat)
      modifies this
      ensures View() == Spec.AppLoss(w, old(View()), count)
    {
      var ret := ClientSend(false, AppReport(count));
      if ret != Ok {
        overflow, lost := overflow + count, lost + count;
      }
    }
  }
}

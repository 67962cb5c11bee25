/** The daemon's message delivery as a deterministic function of its state and of the
    outcomes the environment picks (does this send succeed, does this push fit). */
module Delivery {

  /** The five logging states. */
  datatype Mode = Init | Buffer | BufferFull | SendBuffer | SendDirect

  datatype Msg =
    | App(id: nat)                   // a log message of an application
    | Info(connected: bool)          // connection information
    | Opened(fd: int, total: nat)    // the daemon's own log lines
    | Closed(fd: int, total: nat)
    | Report(count: nat)             // "messages were discarded", with the daemon's counter
    | AppReport(count: nat)          // the same on behalf of an application
    | Time                           // timing packet

  datatype Kind = Tcp | Serial | Other

  datatype Conn = Conn(fd: int, kind: Kind)

  /** One complete transmission of a message to one connection. */
  datatype Sent = Sent(fd: int, msg: Msg)

  /** What is fixed during a run: the filter mask, the options, and every outcome of the environment. */
  datatype World = World(
    tcp: bool,
    serial: bool,
    serialDevice: bool,
    timing: bool,
    sendOk: (nat, int, Msg) -> bool,
    pushOk: (nat, Msg) -> bool)

  /** `conns` are the registered connections in the order of the polled table; clients that the filter mask does
      not admit are registered without being polled, and passed over when messages are sent. The last five are
      history: what was sent completely, which counter values were reset, how much was ever added to the
      counter, which messages were refused, and how many outcomes were used. */
  datatype State = State(
    mode: Mode,
    overflow: nat,
    guard: nat,
    ring: seq<Msg>,
    conns: seq<Conn>,
    clients: nat,
    wire: seq<Sent>,
    cleared: seq<nat>,
    lost: nat,
    refused: seq<Msg>,
    now: nat)

  datatype Ret = Ok | SendFailed | Full

  datatype Outcome = Outcome(st: State, ret: Ret)

  datatype Fan = Fan(st: State, sent: bool)

  predicate Eligible(w: World, c: Conn) {
    (c.kind == Tcp && w.tcp) || (c.kind == Serial && w.serial)
  }

  predicate Masked(w: World) {
    w.tcp || w.serial
  }

  /** 1 while the overflow report may still be attempted. */
  function GuardOpen(s: State): nat {
    if s.guard == 0 then 1 else 0
  }

  /** 1 while a report is due and may be attempted. */
  function ReportDue(s: State): nat {
    if s.overflow > 0 && s.guard == 0 then 1 else 0
  }

  /** Position of the first connection with descriptor fd, or |cs|. */
  function Find(cs: seq<Conn>, fd: int): (i: nat)
    ensures i <= |cs|
    ensures i < |cs| ==> cs[i].fd == fd
    ensures forall j :: 0 <= j < i ==> cs[j].fd != fd
  {
    if cs == [] then 0 else if cs[0].fd == fd then 0 else 1 + Find(cs[1..], fd)
  }

  function Without<T>(s: seq<T>, i: nat): (r: seq<T>)
    requires i < |s|
    ensures |r| == |s| - 1
  {
    s[..i] + s[i + 1..]
  }

  function Unregister(s: State, fd: int): (r: State)
    ensures |r.conns| <= |s.conns|
    ensures Find(s.conns, fd) < |s.conns| ==> |r.conns| == |s.conns| - 1
    ensures r == s.(conns := r.conns, clients := r.clients)
  {
    var i := Find(s.conns, fd);
    if i == |s.conns| then s
    else
      s.(conns := Without(s.conns, i),
         clients := if s.conns[i].kind != Other && s.clients > 0 then s.clients - 1 else s.clients)
  }

  /** A push into an empty buffer fits. */
  predicate Fits(w: World, s: State, m: Msg) {
    s.ring == [] || w.pushOk(s.now, m)
  }

  /** Keep the message in the ring buffer, or count it as discarded. */
  function Store(w: World, s: State, m: Msg): (r: Outcome)
    ensures s.ring <= r.st.ring
    ensures r.st.conns == s.conns && r.st.guard == s.guard && r.st.clients == s.clients
  {
    var t :=
      if s.mode == BufferFull then s
      else if Fits(w, s, m) then s.(ring := s.ring + [m], now := s.now + 1)
      else s.(mode := BufferFull, now := s.now + 1);
    if t.mode == BufferFull then
      Outcome(t.(overflow := t.overflow + 1, lost := t.lost + 1, refused := t.refused + [m]), Full)
    else
      Outcome(t, Ok)
  }

  predicate Stores(m: Mode) {
    m == Buffer || m == SendBuffer || m == BufferFull
  }

  /** Whether the clients are tried at all. */
  predicate Attempts(w: World, s: State, forced: bool) {
    Masked(w) && (forced || s.mode == SendDirect)
  }

  function ClientSend(w: World, s: State, forced: bool, m: Msg): (r: Outcome)
    ensures |r.st.conns| <= |s.conns|
    ensures |r.st.conns| == |s.conns| ==> GuardOpen(r.st) <= GuardOpen(s)
    ensures s.guard >= 1 ==> r.st.guard == s.guard
    ensures s.ring <= r.st.ring
    decreases |s.conns|, GuardOpen(s), 3, 0
  {
    var f := if Attempts(w, s, forced) then FanOut(w, s, m, 0, false) else Fan(s, false);
    if Attempts(w, s, forced) && forced && !f.sent then
      Outcome(f.st, SendFailed)
    else if !forced && Stores(f.st.mode) then
      Store(w, f.st, m)
    else
      Outcome(Settle(w, f.st), Ok)
  }

  /** Report discarded messages when somebody is there to hear it. The guard keeps the report from
      triggering itself; it stays set when the report could not be placed. */
  function Settle(w: World, s: State): (r: State)
    ensures |r.conns| <= |s.conns|
    ensures |r.conns| == |s.conns| ==> GuardOpen(r) <= GuardOpen(s)
    ensures s.guard >= 1 ==> r.guard == s.guard
    ensures s.ring <= r.ring
    decreases |s.conns|, GuardOpen(s), 2, 0
  {
    if s.overflow > 0 && s.clients > 0 && s.guard == 0 then
      var o := ClientSend(w, s.(guard := 1), false, Report(s.overflow));
      if o.ret == Ok then
        o.st.(overflow := 0, cleared := o.st.cleared + [o.st.overflow], guard := o.st.guard - 1)
      else
        o.st
    else
      s
  }

  /** The loop over the polled table, from index i on. Closing a connection compacts the table
      under the running index, so the connection after a failed one is passed over. */
  function FanOut(w: World, s: State, m: Msg, i: nat, sent: bool): (r: Fan)
    ensures |r.st.conns| <= |s.conns|
    ensures |r.st.conns| == |s.conns| ==> r.st == s.(wire := r.st.wire, now := r.st.now)
    ensures s.guard >= 1 ==> r.st.guard == s.guard
    ensures s.ring <= r.st.ring
    decreases |s.conns|, GuardOpen(s), 1, |s.conns| - i
  {
    if i >= |s.conns| then
      Fan(s, sent)
    else if !Eligible(w, s.conns[i]) then
      FanOut(w, s, m, i + 1, sent)
    else
      var c := s.conns[i];
      if w.sendOk(s.now, c.fd, m) then
        FanOut(w, s.(now := s.now + 1, wire := s.wire + [Sent(c.fd, m)]), m, i + 1, true)
      else if c.kind == Tcp then
        FanOut(w, Close(w, s.(now := s.now + 1), c.fd), m, i + 1, sent)
      else
        FanOut(w, s.(now := s.now + 1), m, i + 1, sent)
  }

  /** Close a connection: fall back to buffering after the last client, then tell whoever is left. */
  function Close(w: World, s: State, fd: int): (r: State)
    ensures |r.conns| <= |Unregister(s, fd).conns|
    ensures |r.conns| == |s.conns| ==> GuardOpen(r) <= GuardOpen(s)
    ensures s.guard >= 1 ==> r.guard == s.guard
    ensures s.ring <= r.ring
    decreases |Unregister(s, fd).conns|, GuardOpen(s), 4, 0
  {
    var u := Unregister(s, fd);
    var v := if u.clients == 0 && !w.serialDevice then u.(mode := Buffer) else u;
    var t := ClientSend(w, v, false, Info(false)).st;
    ClientSend(w, t, false, Closed(fd, t.clients)).st
  }

  /** A forced send either loses a connection, or settles the due report, or leaves the buffer alone. */
  lemma ForcedProgress(w: World, s: State, m: Msg)
    ensures var r := ClientSend(w, s, true, m).st;
      || |r.conns| < |s.conns|
      || (|r.conns| == |s.conns| && ReportDue(r) < ReportDue(s))
      || (|r.conns| == |s.conns| && ReportDue(r) == ReportDue(s) && r.ring == s.ring)
  {
  }

  function DrainLoop(w: World, s: State): (r: Outcome)
    decreases |s.conns|, ReportDue(s), |s.ring|
  {
    if s.ring == [] then
      Outcome(s, Ok)
    else
      ForcedProgress(w, s, s.ring[0]);
      var o := ClientSend(w, s, true, s.ring[0]);
      if o.ret != Ok then o
      else
        var t := o.st.(ring := o.st.ring[1..], mode := SendBuffer);
        if t.ring == [] then Outcome(t.(mode := SendDirect), Ok)
        else DrainLoop(w, t)
  }

  /** Send the buffered history to the clients. */
  function Drain(w: World, s: State): (r: Outcome) {
    if s.ring == [] then Outcome(s.(mode := SendDirect), Ok) else DrainLoop(w, s)
  }

  function ClientUpdate(w: World, s: State): (r: State) {
    var o := Drain(w, s);
    if o.ret != Ok || o.st.overflow == 0 then
      o.st
    else
      var p := ClientSend(w, o.st, false, Report(o.st.overflow));
      if p.ret == Ok then
        p.st.(overflow := 0, cleared := p.st.cleared + [p.st.overflow])
      else
        p.st
  }

  /** A descriptor that is already registered is not registered again. */
  function Register(s: State, fd: int): (r: State) {
    if Find(s.conns, fd) < |s.conns| then s
    else s.(clients := s.clients + 1, conns := s.conns + [Conn(fd, Tcp)])
  }

  /** The connection information goes to the new descriptor alone; a failure is not looked at. */
  function Greet(w: World, s: State, fd: int): State {
    s.(now := s.now + 1,
       wire := if w.sendOk(s.now, fd, Info(true)) then s.wire + [Sent(fd, Info(true))] else s.wire)
  }

  function Connect(w: World, s: State, fd: int): (r: State) {
    var u := Greet(w, Register(s, fd), fd);
    var v := ClientSend(w, u, false, Opened(fd, u.clients)).st;
    if v.clients == 1 then ClientUpdate(w, v.(mode := SendBuffer)) else v
  }

  /** The one-second timer. */
  function Tick(w: World, s: State): (r: State) {
    var t := if s.mode == SendBuffer || s.mode == BufferFull then Drain(w, s).st else s;
    if w.timing && t.mode == SendDirect then ClientSend(w, t, false, Time).st else t
  }

  /** An application tells that its own buffer lost n messages. */
  function AppLoss(w: World, s: State, n: nat): (r: State) {
    var o := ClientSend(w, s, false, AppReport(n));
    if o.ret == Ok then o.st else o.st.(overflow := o.st.overflow + n, lost := o.st.lost + n)
  }
}

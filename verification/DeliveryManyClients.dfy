/** What several clients change. */
module DeliveryManyClients {
  import opened Delivery
  import opened DeliveryInvariant
  import opened DeliveryOneClient

  /** A plain TCP daemon in a state that runs can reach. */
  predicate Plain(w: World, s: State) {
    && w.tcp && !w.serialDevice
    && NoSerial(s.conns)
    && s.clients == ClientCount(s.conns)
    && s.mode != Init
    && Inv(w, s)
  }

  predicate OnWire(s: State, m: Msg) {
    exists i :: 0 <= i < |s.wire| && s.wire[i].msg == m
  }

  /** The message was given to some client, or stored, or refused: exactly one of the three. */
  predicate OnceOnly(o: Outcome, m: Msg) {
    && (OnWire(o.st, m) || m in o.st.ring || o.ret == Full)
    && !(OnWire(o.st, m) && m in o.st.ring)
    && !(OnWire(o.st, m) && o.ret == Full)
    && !(m in o.st.ring && o.ret == Full)
  }

  predicate SameSetting(w: World, v: World) {
    w.tcp == v.tcp && w.serial == v.serial && w.serialDevice == v.serialDevice && w.timing == v.timing
  }

  /** Only application messages can get through, and everything fits the buffer. */
  ghost predicate NewsFail(w: World) {
    && (forall t: nat, fd: int, m: Msg :: !m.App? ==> !w.sendOk(t, fd, m))
    && (forall t: nat, m: Msg :: w.pushOk(t, m))
  }

  /** Every client is gone and messages are buffered. */
  predicate Deserted(s: State) {
    s.mode == Buffer && s.clients == 0 == ClientCount(s.conns) && NoSerial(s.conns) && DistinctFds(s.conns)
  }

  predicate Crowd(w: World, s: State) {
    && w.tcp && !w.serialDevice && s.mode == SendDirect
    && NoSerial(s.conns) && DistinctFds(s.conns) && s.clients == ClientCount(s.conns)
  }

  lemma {:induction false} StoreInRoom(w: World, s: State, m: Msg)
    requires NewsFail(w) && s.mode == Buffer
    ensures ClientSend(w, s, false, m) == Outcome(s.(ring := s.ring + [m], now := Store(w, s, m).st.now), Ok)
  {
    SendWhileStoring(w, s, m);
  }

  lemma {:induction false} NobodyEligible(w: World, cs: seq<Conn>)
    requires ClientCount(cs) == 0
    ensures forall j :: 0 <= j < |cs| ==> !Eligible(w, cs[j])
  {
    forall j | 0 <= j < |cs| ensures !Eligible(w, cs[j]) {
      if cs[j].kind != Other {
        CountPositive(cs, j);
      }
    }
  }

  lemma {:induction false} FirstClient(cs: seq<Conn>) returns (p: nat)
    requires NoSerial(cs) && ClientCount(cs) > 0
    ensures p < |cs| && cs[p].kind == Tcp
    ensures forall j :: 0 <= j < p ==> cs[j].kind == Other
  {
    if cs[0].kind != Other {
      p := 0;
    } else {
      p := FirstClient(cs[1..]);
      p := p + 1;
    }
  }

  /** If the news of a lost client cannot be sent, everybody is lost: one failure takes the next. */
  lemma {:induction false} CloseDeserts(w: World, s: State, p: nat)
    requires NewsFail(w) && Crowd(w, s) && p < |s.conns| && s.conns[p].kind == Tcp
    ensures var r := Close(w, s, s.conns[p].fd); Deserted(r) && r.wire == s.wire && s.ring <= r.ring
    decreases |s.conns|, 0, 0
  {
    var fd := s.conns[p].fd;
    assert Find(s.conns, fd) == p;
    CountWithout(s.conns, p);
    CountPositive(s.conns, p);
    var u := Unregister(s, fd);
    var v := if u.clients == 0 then u.(mode := Buffer) else u;
    if u.clients == 0 {
      StoreInRoom(w, v, Info(false));
    } else {
      NewsDesert(w, v, Info(false));
    }
    var t := ClientSend(w, v, false, Info(false)).st;
    StoreInRoom(w, t, Closed(fd, t.clients));
  }

  lemma {:induction false} NewsDesert(w: World, s: State, m: Msg)
    requires NewsFail(w) && Crowd(w, s) && s.clients > 0 && !m.App?
    ensures var r := ClientSend(w, s, false, m).st; Deserted(r) && r.wire == s.wire && s.ring <= r.ring
    decreases |s.conns|, 2, 0
  {
    var p := FirstClient(s.conns);
    NewsFanOut(w, s, m, 0, p);
    var t := FanOut(w, s, m, 0, false).st;
    StoreInRoom(w, t, m);
    assert ClientSend(w, s, false, m) == Store(w, t, m);
  }

  lemma {:induction false} NewsFanOut(w: World, s: State, m: Msg, i: nat, p: nat)
    requires NewsFail(w) && Crowd(w, s) && !m.App?
    requires i <= p < |s.conns| && s.conns[p].kind == Tcp
    requires forall j :: 0 <= j < p ==> s.conns[j].kind == Other
    ensures var r := FanOut(w, s, m, i, false); Deserted(r.st) && r.st.wire == s.wire && s.ring <= r.st.ring
    decreases |s.conns|, 1, p - i
  {
    if i < p {
      NewsFanOut(w, s, m, i + 1, p);
    } else {
      FailureDeserts(w, s, m, p, false);
    }
  }

  /** The same setting, with a single client that can be reached, and only by application messages. */
  function OnlyReaches(w: World, fd: int): World {
    w.(sendOk := (t: nat, f: int, m: Msg) => m.App? && f == fd, pushOk := (t: nat, m: Msg) => true)
  }

  /** Exactly the connection fd takes the message. */
  ghost predicate Reaches(w: World, fd: int, m: Msg) {
    forall t: nat, f: int :: w.sendOk(t, f, m) <==> f == fd
  }

  /** A client that does not take the message, when the news of its loss cannot be sent either. */
  lemma {:induction false} FailureDeserts(w: World, s: State, m: Msg, i: nat, sent: bool)
    requires NewsFail(w) && Crowd(w, s) && i < |s.conns| && s.conns[i].kind == Tcp
    requires !w.sendOk(s.now, s.conns[i].fd, m)
    ensures var r := FanOut(w, s, m, i, sent);
      r.sent == sent && Deserted(r.st) && r.st.wire == s.wire && s.ring <= r.st.ring
    decreases |s.conns|, 0, 1
  {
    hide Close, ClientSend;
    var t := s.(now := s.now + 1);
    CloseDeserts(w, t, i);
    var r := Close(w, t, s.conns[i].fd);
    NobodyEligible(w, r.conns);
    FanOutNobody(w, r, m, i + 1, sent);
  }

  /** After the first client took the message, the next one fails, and with it everybody: the message
      is stored although it was sent. */
  lemma {:induction false} SecondFails(w: World, s: State, m: Msg, i: nat)
    requires NewsFail(w) && Crowd(w, s) && i <= |s.conns| && ClientCount(s.conns[i..]) > 0
    requires forall t: nat, j :: i <= j < |s.conns| ==> !w.sendOk(t, s.conns[j].fd, m)
    ensures var r := FanOut(w, s, m, i, true); r.sent && Deserted(r.st) && r.st.wire == s.wire
    decreases |s.conns| - i
  {
    if s.conns[i].kind == Tcp {
      FailureDeserts(w, s, m, i, true);
    } else {
      assert s.conns[i..][1..] == s.conns[i + 1..];
      SecondFails(w, s, m, i + 1);
    }
  }

  lemma {:induction false} FirstTakes(w: World, s: State, m: Msg, i: nat, p: nat, fd: int)
    requires NewsFail(w) && Reaches(w, fd, m)
    requires Crowd(w, s) && ClientCount(s.conns) > 1
    requires i <= p < |s.conns| && s.conns[p] == Conn(fd, Tcp)
    requires forall j :: 0 <= j < p ==> s.conns[j].kind == Other
    ensures var r := FanOut(w, s, m, i, false);
      r.sent && Deserted(r.st) && r.st.wire == s.wire + [Sent(fd, m)]
    decreases p - i
  {
    hide FanOut;
    FanOutRound(w, s, m, i, false);
    if i < p {
      FirstTakes(w, s, m, i + 1, p, fd);
    } else {
      var t := s.(now := s.now + 1, wire := s.wire + [Sent(fd, m)]);
      CountBehind(s.conns, p);
      SecondFails(w, t, m, p + 1);
    }
  }

  lemma {:induction false} CountBehind(cs: seq<Conn>, p: nat)
    requires p < |cs| && forall j :: 0 <= j < p ==> cs[j].kind == Other
    ensures ClientCount(cs) <= 1 + ClientCount(cs[p + 1..])
  {
    CountSplit(cs[..p + 1], cs[p + 1..]);
    assert cs == cs[..p + 1] + cs[p + 1..];
    CountOthers(cs[..p]);
    CountSplit(cs[..p], [cs[p]]);
    assert cs[..p + 1] == cs[..p] + [cs[p]];
  }

  lemma {:induction false} CountOthers(cs: seq<Conn>)
    requires forall j :: 0 <= j < |cs| ==> cs[j].kind == Other
    ensures ClientCount(cs) == 0
  {
    if cs != [] {
      CountOthers(cs[1..]);
    }
  }

  /** With two clients or more the environment can make the daemon send and store the same message. */
  lemma {:induction false} SentAndStored(w: World, s: State, id: nat) returns (v: World)
    requires Plain(w, s) && s.mode == SendDirect && s.clients > 1
    ensures SameSetting(w, v) && !OnceOnly(ClientSend(v, s, false, App(id)), App(id))
  {
    var p := FirstClient(s.conns);
    var fd := s.conns[p].fd;
    v := OnlyReaches(w, fd);
    FirstTakes(v, s, App(id), 0, p, fd);
    var t := FanOut(v, s, App(id), 0, false).st;
    StoreInRoom(v, t, App(id));
    var o := ClientSend(v, s, false, App(id));
    assert o == Store(v, t, App(id));
    assert o.st.wire[|s.wire|].msg == App(id);
    assert o.st.ring[|t.ring|] == App(id);
  }

  lemma {:induction false} InWire(s: State, m: Msg)
    ensures OnWire(s, m) <==> m in Messages(s.wire)
  {
    if OnWire(s, m) {
      var i :| 0 <= i < |s.wire| && s.wire[i].msg == m;
      assert Messages(s.wire)[i] == m;
    }
  }

  lemma {:induction false} InAppIds(ms: seq<Msg>, id: nat)
    ensures App(id) in ms <==> id in AppIds(ms)
  {
    if ms != [] {
      InAppIds(ms[1..], id);
      assert ms == [ms[0]] + ms[1..];
    }
  }

  /** If one number is appended to a sequence without it, it ends up in exactly one of two parts. */
  lemma {:induction false} OneOfTwo(was: seq<nat>, a: seq<nat>, b: seq<nat>, add: seq<nat>, x: nat)
    requires x !in was && a + b == was + add && (add == [x] || add == [])
    ensures (x in a && x in b) ==> false
    ensures (x in a || x in b) <==> add == [x]
  {
    assert multiset(a + b) == multiset(a) + multiset(b);
    assert multiset(was + add) == multiset(was) + multiset(add);
    assert multiset(was)[x] == 0;
    calc {
      multiset(a)[x] + multiset(b)[x];
      multiset(a + b)[x];
      multiset(was + add)[x];
      multiset(was)[x] + multiset(add)[x];
      multiset(add)[x];
    }
    assert add == [x] ==> multiset(add)[x] == 1;
    assert x in a <==> multiset(a)[x] > 0;
    assert x in b <==> multiset(b)[x] > 0;
  }

  lemma {:induction false} OnceWithOneClient(w: World, s: State, id: nat)
    requires Plain(w, s) && s.clients <= 1
    requires id !in AppIds(Placed(s))
    ensures OnceOnly(ClientSend(w, s, false, App(id)), App(id))
  {
    var o := ClientSend(w, s, false, App(id));
    SendOne(w, s, App(id));
    OnceIfPlaced(s, o, id);
  }

  lemma {:induction false} OnceIfPlaced(s: State, o: Outcome, id: nat)
    requires id !in AppIds(Placed(s)) && o.ret != SendFailed
    requires AppIds(Placed(o.st)) == AppIds(Placed(s)) + (if o.ret == Ok then AppIds([App(id)]) else [])
    ensures OnceOnly(o, App(id))
  {
    var a := AppIds(Messages(o.st.wire));
    var b := AppIds(o.st.ring);
    AppIdsSplit(Messages(o.st.wire), o.st.ring);
    InWire(o.st, App(id));
    InAppIds(Messages(o.st.wire), id);
    InAppIds(o.st.ring, id);
    assert AppIds([App(id)]) == [id];
    OneOfTwo(AppIds(Placed(s)), a, b, if o.ret == Ok then [id] else [], id);
  }

  /** A fresh message is sent, stored or refused, and only one of these whatever the environment does, if and
      only if the daemon is buffering or has a single client. */
  lemma {:induction false} OnceOnlyIff(w: World, s: State, id: nat)
    requires Plain(w, s) && id !in AppIds(Placed(s))
    ensures (forall v: World :: SameSetting(w, v) ==> OnceOnly(ClientSend(v, s, false, App(id)), App(id)))
      <==> (s.mode != SendDirect || s.clients <= 1)
  {
    if s.mode == SendDirect && s.clients > 1 {
      var v := SentAndStored(w, s, id);
    } else {
      forall v: World | SameSetting(w, v) ensures OnceOnly(ClientSend(v, s, false, App(id)), App(id)) {
        if s.mode == SendDirect {
          OnceWithOneClient(v, s, id);
        } else {
          OnceWhileStoring(v, s, id);
        }
      }
    }
  }

  lemma {:induction false} OnceWhileStoring(w: World, s: State, id: nat)
    requires Plain(w, s) && s.mode != SendDirect
    requires id !in AppIds(Placed(s))
    ensures OnceOnly(ClientSend(w, s, false, App(id)), App(id))
  {
    SendWhileStoring(w, s, App(id));
    var o := ClientSend(w, s, false, App(id));
    AppIdsSplit(Messages(s.wire), s.ring);
    InWire(o.st, App(id));
    InAppIds(Messages(s.wire), id);
    InAppIds(s.ring, id);
  }

  /** The same setting, with clients that take everything but application messages. */
  function NewsOnly(w: World): World {
    w.(sendOk := (t: nat, f: int, m: Msg) => !m.App?)
  }

  /** While every piece of news gets through, a single client stays and only the wire grows. */
  lemma {:induction false} NewsReaches(w: World, s: State, fd: int, m: Msg)
    requires w.tcp && s.mode == SendDirect && s.conns == [Conn(fd, Tcp)] && s.overflow == 0
    requires w.sendOk(s.now, fd, m)
    ensures ClientSend(w, s, false, m) == Outcome(s.(now := s.now + 1, wire := s.wire + [Sent(fd, m)]), Ok)
  {
    var t := s.(now := s.now + 1, wire := s.wire + [Sent(fd, m)]);
    FanOutNobody(w, t, m, 1, true);
    assert FanOut(w, s, m, 0, false) == FanOut(w, t, m, 1, true);
  }

  /** Two neighbouring clients: the first fails, the second is passed over, and the message is gone
      although the daemon answers OK. */
  lemma {:induction false} LostBetweenTwo(w: World, id: nat)
    requires w.tcp && !w.serialDevice
    ensures var s := State(SendDirect, 0, 0, [], [Conn(7, Tcp), Conn(8, Tcp)], 2, [], [], 0, [], 0);
      var o := ClientSend(NewsOnly(w), s, false, App(id));
      Plain(w, s) && o.ret == Ok && o.st.ring == [] && !OnWire(o.st, App(id)) && o.st.clients == 1
  {
    var v := NewsOnly(w);
    var s := State(SendDirect, 0, 0, [], [Conn(7, Tcp), Conn(8, Tcp)], 2, [], [], 0, [], 0);
    var t := s.(now := 1);
    var u := t.(conns := [Conn(8, Tcp)], clients := 1);
    assert Unregister(t, 7) == u;
    NewsReaches(v, u, 8, Info(false));
    var a := ClientSend(v, u, false, Info(false)).st;
    NewsReaches(v, a, 8, Closed(7, 1));
    var b := ClientSend(v, a, false, Closed(7, 1)).st;
    assert Close(v, t, 7) == b;
    FanOutNobody(v, b, App(id), 1, false);
    assert FanOut(v, s, App(id), 0, false) == Fan(b, false);
    assert ClientCount([Conn(8, Tcp)]) == 1;
    assert ClientCount(s.conns) == 1 + ClientCount(s.conns[1..]);
  }
}

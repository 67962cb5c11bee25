/** The event handler itself: a growing table that is compacted in place. */
module EventHandlerTable {
  import Spec = EventHandler

  const BASE_FDS := 16

  /** The entry that is found among the first n is taken out by moving up the rest, in one pass, and what
      gets free is emptied. Descriptors must be distinct: the pass compares entries while it moves them. */
  method Compact(pfd: array<Spec.PollFd>, n: nat, fd: int) returns (nfds: nat)
    requires n <= pfd.Length && Spec.PolledOnce(pfd[..n])
    modifies pfd
    ensures nfds <= n && pfd[..nfds] == Spec.Disable(old(pfd[..n]), fd)
    ensures forall k :: nfds <= k < n ==> pfd[k] == Spec.UNUSED
    ensures forall k :: n <= k < pfd.Length ==> pfd[k] == old(pfd[k])
  {
    ghost var all := pfd[..];
    ghost var at := Spec.FindPolled(pfd[..n], fd);
    Spec.DisableAt(pfd[..n], fd);
    MovedNone(all, n, at);
    MovedAll(all, n, fd);
    hide *;
    nfds := n;
    var i, j := 0, 0;
    while i < n
      invariant 0 <= i <= n && pfd[..] == Moved(all, n, at, i)
      invariant j == (if i <= at then i else i + 1) && nfds == (if i <= at then n else n - 1)
    {
      MovedStep(all, n, at, i);
      assert pfd[i] == pfd[..][i] == all[i] && (i + 1 < n ==> pfd[i + 1] == pfd[..][i + 1] == all[i + 1]);
      assert all[i] == all[..n][i];
      if pfd[i].fd == fd {
        pfd[i] := Spec.UNUSED;
        j := j + 1;
        nfds := nfds - 1;
      }
      if i != j {
        if i < nfds {
          pfd[i] := Spec.PollFd(pfd[j].fd, pfd[j].events, pfd[j].revents);
        } else {
          pfd[i] := Spec.UNUSED;
        }
      }
      assert pfd[..] == Moved(all, n, at, i)[i := pfd[i]];
      i, j := i + 1, j + 1;
    }
  }

  /** The entry at k once it was moved: from the found one on, the next; the last one is emptied. */
  function Next(all: seq<Spec.PollFd>, n: nat, at: nat, k: nat): Spec.PollFd
    requires k < n <= |all|
  {
    if k < at then all[k] else if k < n - 1 then all[k + 1] else Spec.UNUSED
  }

  /** The table when the first i entries were moved. */
  function Moved(all: seq<Spec.PollFd>, n: nat, at: nat, i: nat): (r: seq<Spec.PollFd>)
    requires i <= n <= |all|
    ensures |r| == |all|
  {
    seq(|all|, k requires 0 <= k < |all| => if k < i then Next(all, n, at, k) else all[k])
  }

  lemma {:induction false} MovedNone(all: seq<Spec.PollFd>, n: nat, at: nat)
    requires n <= |all|
    ensures Moved(all, n, at, 0) == all
  {
  }

  lemma {:induction false} MovedStep(all: seq<Spec.PollFd>, n: nat, at: nat, i: nat)
    requires i < n <= |all|
    ensures Moved(all, n, at, i + 1) == Moved(all, n, at, i)[i := Next(all, n, at, i)]
    ensures Next(all, n, at, i) == if i < at then all[i] else if i < n - 1 then all[i + 1] else Spec.UNUSED
    ensures forall k :: i <= k < n ==> Moved(all, n, at, i)[k] == all[k]
  {
  }

  lemma {:induction false} MovedAll(all: seq<Spec.PollFd>, n: nat, fd: int)
    requires n <= |all| && Spec.PolledOnce(all[..n])
    ensures var at := Spec.FindPolled(all[..n], fd); var r := Moved(all, n, at, n); var m := if at < n then n - 1 else n;
      && r[..m] == Spec.Disable(all[..n], fd)
      && (forall k :: m <= k < n ==> r[k] == Spec.UNUSED)
      && (forall k :: n <= k < |all| ==> r[k] == all[k])
  {
    Spec.DisableAt(all[..n], fd);
    hide Spec.Disable, Spec.FindPolled, Spec.PolledOnce;
  }

  class EventHandler {
    var pfd: array<Spec.PollFd>
    var nfds: nat
    var connections: seq<Spec.Conn>
    var clientConnections: int
    ghost var open: set<int>      // what the system has open

    /** What is behind the used part is empty; the table is never too small. */
    ghost predicate Valid()
      reads this, pfd
    {
      nfds <= pfd.Length && pfd.Length >= BASE_FDS && forall i :: nfds <= i < pfd.Length ==> pfd[i] == Spec.UNUSED
    }

    ghost function View(): Spec.Handler
      reads this, pfd
      requires nfds <= pfd.Length
    {
      Spec.Handler(connections, pfd[..nfds], clientConnections, open)
    }

    constructor ()
      ensures Valid() && fresh(pfd) && View() == Spec.Handler([], [], 0, {})
    {
      pfd := new Spec.PollFd[BASE_FDS](_ => Spec.UNUSED);
      nfds, connections, clientConnections := 0, [], 0;
      open := {};
    }

    /** Double the table; all entries are kept, the new ones are empty. */
    method Grow()
      requires Valid()
      modifies this`pfd
      ensures Valid() && fresh(pfd) && pfd.Length == 2 * old(pfd.Length) && View() == old(View())
    {
      var max := 2 * pfd.Length;
      var tmp := new Spec.PollFd[max](_ => Spec.UNUSED);
      var i := 0;
      while i < nfds
        invariant 0 <= i <= nfds && tmp.Length == max && pfd == old(pfd)
        invariant forall j :: 0 <= j < i ==> tmp[j] == pfd[j]
        invariant forall j :: i <= j < max ==> tmp[j] == Spec.UNUSED
        invariant forall j :: 0 <= j < pfd.Length ==> pfd[j] == old(pfd[j])
      {
        tmp[i] := pfd[i];
        i := i + 1;
      }
      pfd := tmp;
    }

    method EnableFd(fd: int, mask: int)
      requires Valid()
      modifies this`pfd, this`nfds, pfd
      ensures Valid() && (pfd == old(pfd) || fresh(pfd))
      ensures pfd[..nfds] == Spec.Enable(old(pfd[..nfds]), fd, mask) && nfds <= pfd.Length
    {
      if pfd.Length <= nfds {
        Grow();
      }
      pfd[nfds] := pfd[nfds].(fd := fd, events := mask);
      nfds := nfds + 1;
    }

    method DisableFd(fd: int)
      requires Valid() && Spec.PolledOnce(pfd[..nfds])
      modifies this`nfds, pfd
      ensures Valid() && pfd[..nfds] == Spec.Disable(old(pfd[..nfds]), fd)
    {
      hide Spec.PolledOnce, Spec.Disable;
      nfds := Compact(pfd, nfds, fd);
    }

    method FindConnection(fd: int) returns (i: int)
      requires nfds <= pfd.Length
      ensures i == Entry(Spec.FindConn(connections, fd), |connections|)
    {
      i := 0;
      while i < |connections|
        invariant 0 <= i <= |connections| && forall j :: 0 <= j < i ==> connections[j].fd != fd
      {
        if connections[i].fd == fd {
          return;
        }
        i := i + 1;
      }
      i := -1;
    }

    method FindConnectionOf(kind: nat) returns (i: int)
      ensures i == Entry(Spec.FindKind(connections, kind), |connections|)
    {
      i := 0;
      while i < |connections|
        invariant 0 <= i <= |connections| && forall j :: 0 <= j < i ==> connections[j].kind != kind
      {
        if connections[i].kind == kind {
          return;
        }
        i := i + 1;
      }
      i := -1;
    }

    method CheckActivate(i: nat, admitted: Spec.Admitted, activate: bool)
      requires Valid() && Spec.PolledOnce(pfd[..nfds]) && i < |connections|
      modifies this`pfd, this`nfds, this`connections, pfd
      ensures Valid() && (pfd == old(pfd) || fresh(pfd))
      ensures View() == Spec.CheckActivate(old(View()), i, admitted, activate)
    {
      hide Spec.Enable, Spec.Disable, Spec.PolledOnce;
      var c := connections[i];
      if c.active {
        if !admitted(c.kind) || !activate {
          DisableFd(c.fd);
          if c.kind == Spec.CLIENT_CONNECT {
            connections := connections[i := connections[i].(fd := -1)];
          }
          connections := connections[i := connections[i].(active := false)];
        }
      } else {
        if admitted(c.kind) && activate {
          EnableFd(c.fd, c.mask);
          connections := connections[i := connections[i].(active := true)];
        }
      }
    }

    method RegisterConnection(fd: int, kind: nat, mask: int, admitted: Spec.Admitted)
      requires Valid() && Spec.PolledOnce(pfd[..nfds])
      modifies this, pfd
      ensures Valid() && (pfd == old(pfd) || fresh(pfd))
      ensures View() == Spec.Register(old(View()), fd, kind, mask, admitted)
    {
      hide Spec.CheckActivate, Spec.PolledOnce;
      connections := connections + [Spec.Conn(fd, kind, false, mask)];
      if kind == Spec.CLIENT_MSG_TCP || kind == Spec.CLIENT_MSG_SERIAL {
        clientConnections := clientConnections + 1;
      }
      CheckActivate(|connections| - 1, admitted, true);
    }

    method Create(fd: int, kind: nat, mask: int, admitted: Spec.Admitted)
      requires Valid() && Spec.PolledOnce(pfd[..nfds])
      modifies this, pfd
      ensures Valid() && (pfd == old(pfd) || fresh(pfd))
      ensures View() == Spec.Create(old(View()), fd, kind, mask, admitted)
    {
      hide Spec.Register, Spec.FindConn, Spec.PolledOnce;
      if fd < 0 {
        return;
      }
      open := open + {fd};
      var known := FindConnection(fd);
      if known < 0 {
        RegisterConnection(fd, kind, mask, admitted);
      }
    }

    method UnregisterConnection(fd: int, admitted: Spec.Admitted)
      requires Valid() && Spec.PolledOnce(pfd[..nfds])
      modifies this, pfd
      ensures Valid() && (pfd == old(pfd) || fresh(pfd))
      ensures View() == Spec.Unregister(old(View()), fd, admitted)
    {
      hide Spec.CheckActivate, Spec.FindConn, Spec.PolledOnce;
      var i := FindConnection(fd);
      if i < 0 {
        return;
      }
      var kind := connections[i].kind;
      if kind == Spec.CLIENT_MSG_TCP || kind == Spec.CLIENT_MSG_SERIAL {
        clientConnections := clientConnections - 1;
        if clientConnections < 0 {
          clientConnections := 0;
        }
      }
      CheckActivate(i, admitted, false);
      open := open - {connections[i].fd};
      connections := connections[..i] + connections[i + 1..];
    }

    /** The part of a filter change that concerns the listening connection; fd is what opening a socket gives. */
    method ChangeListener(fd: int, mask: int, admitted: Spec.Admitted)
      requires Valid() && Spec.PolledOnce(pfd[..nfds])
      modifies this, pfd
      ensures Valid() && (pfd == old(pfd) || fresh(pfd))
      ensures View() == Spec.FilterChanged(old(View()), fd, mask, admitted)
    {
      hide Spec.CheckActivate, Spec.Create, Spec.FindKind, Spec.PolledOnce;
      var i := FindConnectionOf(Spec.CLIENT_CONNECT);
      if i < 0 {
        if admitted(Spec.CLIENT_CONNECT) && fd >= 0 {
          Create(fd, Spec.CLIENT_CONNECT, mask, admitted);
        }
        return;
      }
      // the mask of the listening type is passed where a type is expected
      if admitted(Spec.CLIENT_MSG_TCP) {
        if connections[i].fd == -1 {
          if fd < 0 {
            return;
          }
          open := open + {fd};
          connections := connections[i := connections[i].(fd := fd)];
        }
      } else {
        open := open - {connections[i].fd};
      }
      CheckActivate(i, admitted, true);
    }
  }

  function Entry(i: nat, n: nat): int {
    if i < n then i else -1
  }
}

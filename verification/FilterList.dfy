/** The message filter itself: a linked list of configurations, and the current one. */
module FilterList {
  import opened Filter

  class Node {
    var name: string
    var min: int
    var max: nat
    var next: Node?

    constructor (name: string, min: int, max: nat)
      ensures this.name == name && this.min == min && this.max == max && next == null
    {
      this.name, this.min, this.max, this.next := name, min, max, null;
    }

    function Value(): Conf
      reads this
    {
      Conf(name, min, max)
    }
  }

  ghost predicate LinkedAt(nodes: seq<Node>, i: nat)
    requires i < |nodes|
    reads nodes
  {
    nodes[i].next == if i + 1 < |nodes| then nodes[i + 1] else null
  }

  ghost predicate Distinct(nodes: seq<Node>) {
    forall i, j :: 0 <= i < j < |nodes| ==> nodes[i] != nodes[j]
  }

  /** Each node leads to the next one, the last one to nothing. */
  ghost predicate Linked(nodes: seq<Node>)
    reads nodes
  {
    Distinct(nodes) && forall i {:trigger LinkedAt(nodes, i)} :: 0 <= i < |nodes| ==> LinkedAt(nodes, i)
  }

  ghost function Values(nodes: seq<Node>): (r: seq<Conf>)
    reads nodes
    ensures |r| == |nodes| && forall i :: 0 <= i < |nodes| ==> r[i] == nodes[i].Value()
  {
    if nodes == [] then [] else [nodes[0].Value()] + Values(nodes[1..])
  }

  lemma {:induction false} DistinctInserted(nodes: seq<Node>, k: nat, conf: Node)
    requires Distinct(nodes) && k + 1 < |nodes| && conf !in nodes
    ensures Distinct(nodes[..k + 1] + [conf] + nodes[k + 1..])
    ensures forall i :: 0 <= i < |nodes| && i != k ==> nodes[i] != nodes[k]
    ensures forall i :: 0 <= i < |nodes| && i != k + 1 ==> nodes[i] != nodes[k + 1]
  {
  }

  lemma {:induction false} DistinctAround(nodes: seq<Node>, conf: Node)
    requires Distinct(nodes) && nodes != [] && conf !in nodes
    ensures Distinct([conf] + nodes) && Distinct(nodes + [conf])
    ensures forall i :: 0 < i < |nodes| ==> nodes[i] != nodes[0]
    ensures forall i :: 0 <= i < |nodes| - 1 ==> nodes[i] != nodes[|nodes| - 1]
  {
  }

  ghost function Head(nodes: seq<Node>): Node? {
    if nodes == [] then null else nodes[0]
  }

  // ---- the three ways of putting a configuration in

  function PutFront(list: seq<Conf>, c: Conf): seq<Conf>
    requires list != []
  {
    [c, list[0].(min := c.max + 1)] + list[1..]
  }

  function PutMiddle(list: seq<Conf>, k: nat, c: Conf): seq<Conf>
    requires k + 1 < |list|
  {
    list[..k + 1] + [c.(min := list[k + 1].min), list[k + 1].(min := c.max + 1)] + list[k + 2..]
  }

  function PutEnd(list: seq<Conf>, c: Conf): seq<Conf>
    requires list != []
  {
    list + [c.(min := list[|list| - 1].max + 1)]
  }

  lemma {:induction false} LinkedFront(nodes: seq<Node>, conf: Node)
    requires nodes != [] && Distinct([conf] + nodes) && conf.next == nodes[0]
    requires forall i {:trigger LinkedAt(nodes, i)} :: 0 <= i < |nodes| ==> LinkedAt(nodes, i)
    ensures Linked([conf] + nodes)
  {
    hide Distinct;
    var r := [conf] + nodes;
    forall i | 0 <= i < |r| ensures LinkedAt(r, i) {
      if i > 0 {
        assert LinkedAt(nodes, i - 1);
      }
    }
  }

  lemma {:induction false} LinkedMiddle(nodes: seq<Node>, k: nat, conf: Node)
    requires k + 1 < |nodes| && Distinct(nodes[..k + 1] + [conf] + nodes[k + 1..])
    requires nodes[k].next == conf && conf.next == nodes[k + 1]
    requires forall i {:trigger LinkedAt(nodes, i)} :: 0 <= i < |nodes| && i != k ==> LinkedAt(nodes, i)
    ensures Linked(nodes[..k + 1] + [conf] + nodes[k + 1..])
  {
    hide Distinct;
    var r := nodes[..k + 1] + [conf] + nodes[k + 1..];
    forall i | 0 <= i < |r| ensures LinkedAt(r, i) {
      if i < k {
        assert LinkedAt(nodes, i);
      } else if i > k + 1 {
        assert LinkedAt(nodes, i - 1);
      }
    }
  }

  lemma {:induction false} MiddleView(was: seq<Node>, k: nat, conf: Node, list: seq<Conf>, c: Conf)
    requires k + 1 < |was| == |list| && conf.Value() == c.(min := list[k + 1].min) && was[k + 1].Value() == list[k + 1].(min := c.max + 1)
    requires forall i :: 0 <= i < |was| && i != k + 1 ==> was[i].Value() == list[i]
    ensures Values(was[..k + 1] + [conf] + was[k + 1..]) == PutMiddle(list, k, c)
  {
    hide Values;
  }

  lemma {:induction false} LinkedEnd(nodes: seq<Node>, conf: Node)
    requires nodes != [] && Distinct(nodes + [conf]) && nodes[|nodes| - 1].next == conf && conf.next == null
    requires forall i {:trigger LinkedAt(nodes, i)} :: 0 <= i < |nodes| - 1 ==> LinkedAt(nodes, i)
    ensures Linked(nodes + [conf])
  {
    hide Distinct;
    var r := nodes + [conf];
    forall i | 0 <= i < |r| ensures LinkedAt(r, i) {
      if i < |nodes| - 1 {
        assert LinkedAt(nodes, i);
      }
    }
  }

  lemma {:induction false} EndView(was: seq<Node>, conf: Node, list: seq<Conf>, c: Conf)
    requires was != [] && |was| == |list| && conf.Value() == c.(min := list[|list| - 1].max + 1)
    requires forall i :: 0 <= i < |was| ==> was[i].Value() == list[i]
    ensures Values(was + [conf]) == PutEnd(list, c)
  {
    hide Values;
  }

  lemma {:induction false} LastView(nodes: seq<Node>, list: seq<Conf>)
    requires nodes != [] && |nodes| == |list| && nodes[|nodes| - 1].Value() == list[|list| - 1].(max := LEVEL_MAX)
    requires list[|list| - 1].max < LEVEL_MAX
    requires forall i :: 0 <= i < |nodes| - 1 ==> nodes[i].Value() == list[i]
    ensures Values(nodes) == Ranged(list)
  {
    hide Values;
  }

  lemma {:induction false} FrontView(nodes: seq<Node>, was: seq<Node>, list: seq<Conf>, c: Conf)
    requires was != [] && nodes != [] && nodes == [nodes[0]] + was && |list| == |was| && nodes[0].Value() == c
    requires was[0].Value() == list[0].(min := c.max + 1) && forall i :: 0 < i < |was| ==> was[i].Value() == list[i]
    ensures Values(nodes) == PutFront(list, c)
  {
    hide Values;
  }

  class MessageFilter {
    var configs: Node?
    var current: Node?
    ghost var nodes: seq<Node>

    ghost predicate Valid()
      reads this, nodes
    {
      Linked(nodes) && configs == Head(nodes)
    }

    ghost function View(): seq<Conf>
      reads this, nodes
    {
      Values(nodes)
    }

    constructor ()
      ensures Valid() && View() == [] && nodes == []
    {
      configs, current, nodes := null, null, [];
    }

    /** Behind the node at k: put the configuration in before the next one. */
    method InsertInMiddle(conf: Node, ghost k: nat, cur: Node, following: Node)
      requires Valid() && conf !in nodes && conf.next == null && k + 1 < |nodes| && nodes[k] == cur && nodes[k + 1] == following
      modifies this`nodes, conf, nodes
      ensures Valid() && nodes == old(nodes)[..k + 1] + [conf] + old(nodes)[k + 1..]
      ensures View() == PutMiddle(old(View()), k, old(conf.Value()))
    {
      ghost var was := nodes;
      DistinctInserted(was, k, conf);
      hide Values, Distinct, PutMiddle;
      conf.min := following.min;
      conf.next := following;
      following.min := conf.max + 1;
      cur.next := conf;
      nodes := was[..k + 1] + [conf] + was[k + 1..];
      forall i | 0 <= i < |was| && i != k ensures LinkedAt(was, i) {
        assert old(LinkedAt(was, i)) && was[i] != cur;
      }
      LinkedMiddle(was, k, conf);
      forall i | 0 <= i < |was| && i != k + 1 ensures was[i].Value() == old(was[i].Value()) {
        assert was[i] != following;
      }
      MiddleView(was, k, conf, old(View()), old(conf.Value()));
    }

    method InsertAtEnd(conf: Node, cur: Node)
      requires Valid() && conf !in nodes && conf.next == null && |nodes| > 0 && nodes[|nodes| - 1] == cur
      modifies this`nodes, conf, nodes
      ensures Valid() && nodes == old(nodes) + [conf]
      ensures View() == PutEnd(old(View()), old(conf.Value()))
    {
      ghost var was := nodes;
      DistinctAround(was, conf);
      hide Values, Distinct, PutEnd;
      conf.min := cur.max + 1;
      cur.next := conf;
      nodes := was + [conf];
      forall i | 0 <= i < |was| - 1 ensures LinkedAt(was, i) {
        assert old(LinkedAt(was, i)) && was[i] != cur;
      }
      LinkedEnd(was, conf);
      EndView(was, conf, old(View()), old(conf.Value()));
    }

    method InsertAtFront(conf: Node, first: Node)
      requires Valid() && conf !in nodes && conf.next == null && configs == first
      modifies this`configs, this`nodes, conf, nodes
      ensures Valid() && nodes == [conf] + old(nodes)
      ensures View() == PutFront(old(View()), old(conf.Value()))
    {
      ghost var was := nodes;
      DistinctAround(was, conf);
      hide Values, Distinct, PutFront;
      conf.next := first;
      first.min := conf.max + 1;
      configs := conf;
      nodes := [conf] + was;
      forall i | 0 <= i < |was| ensures LinkedAt(was, i) {
        assert old(LinkedAt(was, i));
      }
      LinkedFront(was, conf);
      FrontView(nodes, was, old(View()), old(conf.Value()));
    }

    method Insert(conf: Node) returns (ok: bool)
      requires Valid() && conf !in nodes && conf.next == null && conf.min == LEVEL_MIN
      modifies this`configs, this`nodes, conf, nodes
      ensures Valid() && current == old(current)
      ensures var r := Filter.Insert(old(View()), old(conf.Value()));
        ok == r.Done? && View() == (if r.Done? then r.list else old(View())) && (!ok ==> nodes == old(nodes))
    {
      ghost var list, c := View(), conf.Value();
      InsertIs(list, c);
      hide Distinct, InsertAfter, Filter.Insert, PutFront, Values;
      ValuesOf(nodes);
      OneValue(conf);
      if configs == null {
        configs := conf;
        nodes := [conf];
        OneDistinct(conf);
        assert LinkedAt(nodes, 0);
        return true;
      }
      if conf.max < configs.max {
        InsertAtFront(conf, configs);
        return true;
      }
      ok := InsertBehind(conf, configs);
    }

    /** The loop to the place of a configuration, which is behind the head; it may meet its level. */
    method FindPlace(head: Node, max: nat, ghost c: Conf) returns (cur: Node, refused: bool, ghost k: nat)
      requires Valid() && configs == head && c.max == max
      ensures k < |nodes| && cur == nodes[k]
      ensures refused ==> InsertAfter(View(), c) == Refused
      ensures !refused ==> max != cur.max && (k + 1 < |nodes| ==> max < nodes[k + 1].max)
      ensures !refused ==> InsertAfter(View(), c) == Lift(View()[..k], InsertAfter(View()[k..], c))
    {
      ghost var list := View();
      cur, refused, k := head, false, 0;
      assert list[..0] == [] && list[0..] == list;
      LiftNothing(InsertAfter(list, c));
      hide Values, Distinct, InsertAfter, Lift;
      while cur.next != null
        invariant 0 <= k < |nodes| == |list| && cur == nodes[k]
        invariant InsertAfter(list, c) == Lift(list[..k], InsertAfter(list[k..], c))
        decreases |list| - k
      {
        assert LinkedAt(nodes, k);
        if max == cur.max {
          LiftRefused(list, k, c);
          refused := true;
          return;
        }
        if max < cur.next.max {
          return;
        }
        LiftNext(list, k, c);
        cur, k := cur.next, k + 1;
      }
      assert LinkedAt(nodes, k);
      if max == cur.max {
        LiftRefused(list, k, c);
        refused := true;
      }
    }

    method InsertBehind(conf: Node, head: Node) returns (ok: bool)
      requires Valid() && conf !in nodes && conf.next == null && configs == head && conf.max >= head.max
      modifies this`nodes, conf, nodes
      ensures Valid()
      ensures var r := Filter.InsertAfter(old(View()), old(conf.Value()));
        ok == r.Done? && View() == (if r.Done? then r.list else old(View())) && (!ok ==> nodes == old(nodes))
    {
      ghost var c := conf.Value();
      ghost var list := View();
      var cur, refused, k := FindPlace(head, conf.max, c);
      hide Values, Distinct, InsertAfter, Lift, PutMiddle, PutEnd;
      if refused {
        return false;
      }
      assert LinkedAt(nodes, k);
      if cur.next != null {
        LiftMiddle(list, k, c);
        InsertInMiddle(conf, k, cur, cur.next);
      } else {
        LiftEnd(list, k, c);
        InsertAtEnd(conf, cur);
      }
      return true;
    }

    /** Make the last interval reach the highest level; without any, add a closed filter. */
    method CheckRange()
      requires Valid()
      modifies this`configs, this`nodes, nodes
      ensures Valid() && View() == Ranged(old(View()))
    {
      hide Distinct;
      if configs == null {
        configs := new Node("Customer", LEVEL_MIN, LEVEL_MAX);
        nodes := [configs];
        OneDistinct(configs);
        assert LinkedAt(nodes, 0);
        return;
      }
      ghost var n := |nodes| - 1;
      ghost var list := View();
      var conf := configs;
      ghost var k := 0;
      assert LinkedAt(nodes, 0);
      while conf.next != null
        invariant 0 <= k <= n && conf == nodes[k] && View() == list && Valid() && nodes == old(nodes)
        decreases n - k
      {
        assert LinkedAt(nodes, k);
        conf, k := conf.next, k + 1;
      }
      assert LinkedAt(nodes, k);
      if conf.max < LEVEL_MAX {
        conf.max := LEVEL_MAX;
        LastDiffers(nodes);
        hide Ranged, Values;
        LastView(nodes, list);
        forall i | 0 <= i < |nodes| ensures LinkedAt(nodes, i) {
          assert old(LinkedAt(nodes, i));
        }
      }
    }

    /** Walk to the first configuration whose upper level is not below the level. */
    method SelectLevel(level: nat) returns (ok: bool)
      requires Valid()
      modifies this`current
      ensures var i := Select(View(), level);
        ok == (i < |nodes|) && current == if i < |nodes| then nodes[i] else old(current)
    {
      hide Distinct;
      var conf := configs;
      ghost var k := 0;
      while conf != null
        invariant 0 <= k <= |nodes| && conf == (if k < |nodes| then nodes[k] else null)
        invariant forall j :: 0 <= j < k ==> nodes[j].max < level
        invariant current == old(current)
        decreases |nodes| - k
      {
        if conf.max >= level {
          current := conf;
          return true;
        }
        assert LinkedAt(nodes, k);
        conf, k := conf.next, k + 1;
      }
      return false;
    }

    /** The callback of the backend. */
    method LevelChanged(level: nat, ghost at: nat)
      requires Valid() && at < |nodes| && current == nodes[at]
      modifies this`current
      ensures var u := Filter.LevelChanged(State(View(), at), level); current == nodes[u.current]
    {
      hide Distinct;
      if current.min <= level <= current.max {
        return;
      }
      if level > LEVEL_MAX {
        return;
      }
      var ok := SelectLevel(level);
    }
  }

  lemma {:induction false} OneDistinct(n: Node)
    ensures Distinct([n])
  {
  }

  lemma {:induction false} LastDiffers(nodes: seq<Node>)
    requires Distinct(nodes) && nodes != []
    ensures forall i :: 0 <= i < |nodes| - 1 ==> nodes[i] != nodes[|nodes| - 1]
  {
  }

  lemma {:induction false} InsertIs(list: seq<Conf>, c: Conf)
    ensures list == [] ==> Filter.Insert(list, c) == Done([c])
    ensures list != [] && c.max < list[0].max ==> Filter.Insert(list, c) == Done(PutFront(list, c))
    ensures list != [] && c.max >= list[0].max ==> Filter.Insert(list, c) == InsertAfter(list, c)
  {
  }

  lemma {:induction false} ValuesOf(nodes: seq<Node>)
    ensures nodes == [] <==> Values(nodes) == []
  {
  }

  lemma {:induction false} OneValue(n: Node)
    ensures Values([n]) == [n.Value()]
  {
  }

  // ---- the walk to the place of a configuration

  /** What comes of the rest of a list, with the front put before it again. */
  function Lift(front: seq<Conf>, r: Inserted): Inserted {
    if r.Refused? then Refused else Done(front + r.list)
  }

  lemma {:induction false} LiftNothing(r: Inserted)
    ensures Lift([], r) == r
  {
    if r.Done? {
      assert [] + r.list == r.list;
    }
  }

  lemma {:induction false} LiftRefused(list: seq<Conf>, k: nat, c: Conf)
    requires k < |list| && c.max == list[k].max
    ensures Lift(list[..k], InsertAfter(list[k..], c)) == Refused
  {
  }

  lemma {:induction false} LiftMiddle(list: seq<Conf>, k: nat, c: Conf)
    requires k + 1 < |list| && c.max != list[k].max && c.max < list[k + 1].max
    ensures Lift(list[..k], InsertAfter(list[k..], c)) == Done(PutMiddle(list, k, c))
  {
    var rest := list[k..];
    assert rest[2..] == list[k + 2..] && rest[1] == list[k + 1] && rest[0] == list[k];
    assert list[..k] + ([rest[0], c.(min := rest[1].min), rest[1].(min := c.max + 1)] + rest[2..])
        == list[..k + 1] + [c.(min := list[k + 1].min), list[k + 1].(min := c.max + 1)] + list[k + 2..];
  }

  lemma {:induction false} LiftNext(list: seq<Conf>, k: nat, c: Conf)
    requires k + 1 < |list| && c.max != list[k].max && c.max >= list[k + 1].max
    ensures Lift(list[..k], InsertAfter(list[k..], c)) == Lift(list[..k + 1], InsertAfter(list[k + 1..], c))
  {
    var rest := list[k..];
    assert rest[1..] == list[k + 1..] && rest[0] == list[k] && rest[1] == list[k + 1];
    var r := InsertAfter(rest[1..], c);
    if r.Done? {
      assert list[..k] + ([list[k]] + r.list) == list[..k + 1] + r.list;
    }
  }

  lemma {:induction false} LiftEnd(list: seq<Conf>, k: nat, c: Conf)
    requires k + 1 == |list| && c.max != list[k].max
    ensures Lift(list[..k], InsertAfter(list[k..], c)) == Done(PutEnd(list, c))
  {
    var rest := list[k..];
    assert rest == [list[k]];
    assert list[..k] + [list[k], c.(min := list[k].max + 1)] == list + [c.(min := list[k].max + 1)];
  }
}

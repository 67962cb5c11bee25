/** The levels of the message filter: intervals that follow one another, and the choice among them. */
module Filter {

  const LEVEL_MIN := 0
  const LEVEL_MAX := 100

  /** A filter configuration; `name` stands for everything that does not concern levels. */
  datatype Conf = Conf(name: string, min: int, max: nat)

  /** The list after an insertion, or nothing where the level is already defined. */
  datatype Inserted = Refused | Done(list: seq<Conf>)

  /** Behind the head: between two configurations, or at the end. */
  function InsertAfter(list: seq<Conf>, c: Conf): Inserted
    requires list != []
  {
    if c.max == list[0].max then Refused
    else if |list| == 1 then Done([list[0], c.(min := list[0].max + 1)])
    else if c.max < list[1].max then
      Done([list[0], c.(min := list[1].min), list[1].(min := c.max + 1)] + list[2..])
    else
      var r := InsertAfter(list[1..], c);
      if r.Refused? then Refused else Done([list[0]] + r.list)
  }

  function Insert(list: seq<Conf>, c: Conf): Inserted {
    if list == [] then Done([c])
    else if c.max < list[0].max then Done([c, list[0].(min := c.max + 1)] + list[1..])
    else InsertAfter(list, c)
  }

  /** Configurations as they are read; one whose level is defined already is dropped. */
  function InsertAll(list: seq<Conf>, cs: seq<Conf>): seq<Conf>
    decreases |cs|
  {
    if cs == [] then list
    else
      var r := Insert(list, cs[0].(min := LEVEL_MIN));
      InsertAll(if r.Done? then r.list else list, cs[1..])
  }

  /** The last interval is extended; without any, a closed filter is added. */
  function Ranged(list: seq<Conf>): (r: seq<Conf>)
    ensures r != []
  {
    if list == [] then [Conf("Customer", LEVEL_MIN, LEVEL_MAX)]
    else
      var n := |list| - 1;
      if list[n].max < LEVEL_MAX then list[n := list[n].(max := LEVEL_MAX)] else list
  }

  /** The first configuration whose upper level is not below the level, or the length. */
  function Select(list: seq<Conf>, level: int): (i: nat)
    ensures i <= |list|
    ensures i < |list| ==> list[i].max >= level
    ensures forall j :: 0 <= j < i ==> list[j].max < level
  {
    if list == [] || list[0].max >= level then 0 else 1 + Select(list[1..], level)
  }

  // ---- what the list looks like

  /** Intervals from a lower level on, each following the one before. */
  predicate Chain(list: seq<Conf>, from: int) {
    list == [] || (list[0].min == from && from <= list[0].max && Chain(list[1..], list[0].max + 1))
  }

  predicate InRange(list: seq<Conf>) {
    forall i :: 0 <= i < |list| ==> list[i].max <= LEVEL_MAX
  }

  /** Name and upper level of every configuration. */
  function Entries(list: seq<Conf>): (e: set<(string, nat)>) {
    set i | 0 <= i < |list| :: (list[i].name, list[i].max)
  }

  function Maxima(list: seq<Conf>): set<nat> {
    set i | 0 <= i < |list| :: list[i].max
  }

  lemma {:induction false} EntriesStep(list: seq<Conf>)
    requires list != []
    ensures Entries(list) == {(list[0].name, list[0].max)} + Entries(list[1..])
    ensures Maxima(list) == {list[0].max} + Maxima(list[1..])
  {
    var rest := list[1..];
    assert forall i :: 0 <= i < |rest| ==> rest[i] == list[i + 1];
    forall i | 0 <= i < |list|
      ensures (list[i].name, list[i].max) in {(list[0].name, list[0].max)} + Entries(rest)
      ensures list[i].max in {list[0].max} + Maxima(rest)
    {
      if i > 0 {
        assert (rest[i - 1].name, rest[i - 1].max) in Entries(rest) && rest[i - 1].max in Maxima(rest);
      }
    }
    forall i | 0 <= i < |rest|
      ensures (rest[i].name, rest[i].max) in Entries(list) && rest[i].max in Maxima(list)
    {
      assert list[i + 1] == rest[i];
    }
    assert list[0] == list[0];
  }

  lemma {:induction false} ChainAbove(list: seq<Conf>, from: int, i: nat)
    requires Chain(list, from) && i < |list|
    ensures from <= list[i].min <= list[i].max
    ensures i > 0 ==> list[i].min == list[i - 1].max + 1
  {
    if i > 0 {
      ChainAbove(list[1..], list[0].max + 1, i - 1);
    }
  }

  lemma {:induction false} ChainIncreases(list: seq<Conf>, from: int, i: nat, j: nat)
    requires Chain(list, from) && i < j < |list|
    ensures list[i].max < list[j].min
  {
    ChainAbove(list, from, j);
    if i < j - 1 {
      ChainIncreases(list, from, i, j - 1);
      ChainAbove(list, from, j - 1);
    }
  }

  // ---- inserting

  /** The outcome of an insertion: refused where the level is defined, else the configuration is added. */
  ghost predicate Outcome(r: Inserted, list: seq<Conf>, from: int, c: Conf) {
    && (r.Refused? <==> c.max in Maxima(list))
    && (r.Done? ==> Chain(r.list, from) && Entries(r.list) == Entries(list) + {(c.name, c.max)} && Maxima(r.list) == Maxima(list) + {c.max})
  }

  lemma {:induction false} ChainOf(a: Conf, list: seq<Conf>, from: int)
    ensures Chain([a] + list, from) <==> a.min == from && from <= a.max && Chain(list, a.max + 1)
  {
    assert ([a] + list)[1..] == list;
  }

  lemma {:induction false} InsertAtEnd(a: Conf, from: int, c: Conf)
    requires a.min == from <= a.max < c.max
    ensures Outcome(InsertAfter([a], c), [a], from, c)
  {
    var d := c.(min := a.max + 1);
    EntriesOfTwo(a, d);
    ChainOf(d, [], a.max + 1);
    ChainOf(a, [d], from);
    assert [d] + [] == [d] && [a] + [d] == [a, d];
    hide Entries, Maxima, Chain;
    assert Chain([], d.max + 1) by { NoChain(d.max + 1); }
  }

  lemma {:induction false} NoChain(from: int)
    ensures Chain([], from)
  {
  }

  lemma {:induction false} InsertInMiddle(a: Conf, rest: seq<Conf>, from: int, c: Conf)
    requires rest != [] && a.min == from <= a.max && Chain(rest, a.max + 1) && a.max < c.max < rest[0].max
    ensures Outcome(InsertAfter([a] + rest, c), [a] + rest, from, c)
  {
    assert rest[0].min == a.max + 1;
    hide Entries, Maxima, Chain, InsertAfter;
    NotAmong(rest, a.max + 1, c.max);
    var d := c.(min := rest[0].min);
    InsertedFirst(rest, a.max + 1, d);
    var r := [d, rest[0].(min := c.max + 1)] + rest[1..];
    Prepended(a, rest);
    Prepended(a, r);
    ChainOf(a, r, from);
    InsertedInMiddle(a, rest, c);
  }

  lemma {:induction false} InsertedInMiddle(a: Conf, rest: seq<Conf>, c: Conf)
    requires rest != [] && a.max < c.max < rest[0].max
    ensures InsertAfter([a] + rest, c) == Done([a] + ([c.(min := rest[0].min), rest[0].(min := c.max + 1)] + rest[1..]))
  {
    var list := [a] + rest;
    assert list[2..] == rest[1..];
    assert [a, c.(min := rest[0].min), rest[0].(min := c.max + 1)] + rest[1..]
        == [a] + ([c.(min := rest[0].min), rest[0].(min := c.max + 1)] + rest[1..]);
  }

  lemma {:induction false} InsertFurther(list: seq<Conf>, from: int, c: Conf, r: Inserted)
    requires list != [] && Chain(list, from) && c.max != list[0].max
    requires Outcome(r, list[1..], list[0].max + 1, c)
    ensures Outcome(if r.Refused? then Refused else Done([list[0]] + r.list), list, from, c)
  {
    EntriesStep(list);
    if r.Done? {
      Prepended(list[0], r.list);
    }
    hide Entries, Maxima;
  }

  /** What an insertion behind the head does. */
  lemma {:induction false} InsertAfterKeeps(list: seq<Conf>, from: int, c: Conf)
    requires list != [] && Chain(list, from) && c.max >= list[0].max
    ensures Outcome(InsertAfter(list, c), list, from, c)
  {
    if c.max == list[0].max {
      EntriesStep(list);
    } else if |list| == 1 {
      assert list == [list[0]];
      InsertAtEnd(list[0], from, c);
    } else if c.max < list[1].max {
      assert list == [list[0]] + list[1..];
      hide Outcome, InsertAfter;
      InsertInMiddle(list[0], list[1..], from, c);
    } else {
      hide Outcome;
      InsertAfterKeeps(list[1..], list[0].max + 1, c);
      InsertFurther(list, from, c, InsertAfter(list[1..], c));
    }
  }

  lemma {:induction false} EntriesOfTwo(a: Conf, b: Conf)
    ensures Entries([a, b]) == {(a.name, a.max), (b.name, b.max)} && Maxima([a, b]) == {a.max, b.max}
    ensures Entries([a]) == {(a.name, a.max)} && Maxima([a]) == {a.max}
  {
    EntriesStep([a]);
    EntriesStep([a, b]);
    assert [a, b][1..] == [b];
    EntriesStep([b]);
    assert Entries([]) == {} && Maxima([]) == {};
  }

  lemma {:induction false} Prepended(a: Conf, list: seq<Conf>)
    ensures Entries([a] + list) == {(a.name, a.max)} + Entries(list) && Maxima([a] + list) == {a.max} + Maxima(list)
    ensures ([a] + list)[1..] == list
  {
    EntriesStep([a] + list);
    assert ([a] + list)[1..] == list;
  }

  /** A level below the first upper level, and above what the list starts from, is not in the list. */
  lemma {:induction false} NotAmong(list: seq<Conf>, from: int, level: nat)
    requires list != [] && Chain(list, from) && level < list[0].max
    ensures level !in Maxima(list)
  {
    forall i | 0 <= i < |list| ensures list[i].max != level {
      if i > 0 {
        ChainIncreases(list, from, 0, i);
        ChainAbove(list, from, i);
      }
    }
  }

  /** c, then the list with its first lower level raised. */
  lemma {:induction false} InsertedFirst(list: seq<Conf>, from: int, c: Conf)
    requires list != [] && Chain(list, from) && c.min == from && from <= c.max < list[0].max
    ensures var r := [c, list[0].(min := c.max + 1)] + list[1..];
      Chain(r, from) && Entries(r) == Entries(list) + {(c.name, c.max)} && Maxima(r) == Maxima(list) + {c.max}
  {
    var first := list[0].(min := c.max + 1);
    var tail := [first] + list[1..];
    assert [c, first] + list[1..] == [c] + tail;
    EntriesStep(list);
    Prepended(first, list[1..]);
    Prepended(c, tail);
    hide Entries, Maxima;
  }

  /** Inserting keeps the intervals following one another from 0 on; a level that is defined already is
      refused; otherwise the configuration is added and all others keep their upper level. */
  lemma {:induction false} InsertKeeps(list: seq<Conf>, c: Conf)
    requires Chain(list, LEVEL_MIN) && c.min == LEVEL_MIN
    ensures Outcome(Insert(list, c), list, LEVEL_MIN, c)
  {
    if list == [] {
      EntriesOfTwo(c, c);
    } else if c.max < list[0].max {
      NotAmong(list, LEVEL_MIN, c.max);
      InsertedFirst(list, LEVEL_MIN, c);
    } else {
      InsertAfterKeeps(list, LEVEL_MIN, c);
    }
  }

  // ---- the order of insertions

  /** Two lists of following intervals with the same configurations are the same. */
  lemma {:induction false} ChainUnique(a: seq<Conf>, b: seq<Conf>, from: int)
    requires Chain(a, from) && Chain(b, from) && Entries(a) == Entries(b)
    ensures a == b
    decreases |a|
  {
    NoEntries(a);
    NoEntries(b);
    if a != [] {
      assert (a[0].name, a[0].max) in Entries(b);
      FirstIsLeast(a, from, b[0].name, b[0].max);
      FirstIsLeast(b, from, a[0].name, a[0].max);
      assert a[0] == b[0];
      RestEntries(a, from);
      RestEntries(b, from);
      ChainUnique(a[1..], b[1..], a[0].max + 1);
      assert a == [a[0]] + a[1..] && b == [b[0]] + b[1..];
    }
  }

  lemma {:induction false} NoEntries(list: seq<Conf>)
    ensures Entries(list) == {} <==> list == []
  {
    if list != [] {
      EntriesStep(list);
    }
  }

  lemma {:induction false} FirstIsLeast(list: seq<Conf>, from: int, name: string, max: nat)
    requires list != [] && Chain(list, from) && ((name, max) in Entries(list) || (list[0].name, list[0].max) == (name, max))
    ensures list[0].max <= max
    ensures list[0].max == max ==> list[0].name == name
  {
    if (name, max) in Entries(list) {
      var i :| 0 <= i < |list| && (list[i].name, list[i].max) == (name, max);
      if i > 0 {
        ChainIncreases(list, from, 0, i);
        ChainAbove(list, from, i);
      }
    }
  }

  lemma {:induction false} RestEntries(list: seq<Conf>, from: int)
    requires list != [] && Chain(list, from)
    ensures Entries(list[1..]) == Entries(list) - {(list[0].name, list[0].max)}
  {
    EntriesStep(list);
    var rest := list[1..];
    forall i | 0 <= i < |rest| ensures (rest[i].name, rest[i].max) != (list[0].name, list[0].max) {
      ChainIncreases(list, from, 0, i + 1);
      ChainAbove(list, from, i + 1);
    }
  }

  /** No two configurations define the same level, and none defines one of the list. */
  predicate NewLevels(cs: seq<Conf>, defined: set<nat>) {
    (forall i :: 0 <= i < |cs| ==> cs[i].max !in defined) && forall i, j :: 0 <= i < j < |cs| ==> cs[i].max != cs[j].max
  }

  lemma {:induction false} InsertAllEntries(list: seq<Conf>, cs: seq<Conf>)
    requires Chain(list, LEVEL_MIN) && NewLevels(cs, Maxima(list))
    ensures Chain(InsertAll(list, cs), LEVEL_MIN)
    ensures Entries(InsertAll(list, cs)) == Entries(list) + Entries(cs)
    decreases |cs|
  {
    if cs == [] {
      assert Entries(cs) == {};
    } else {
      var c := cs[0].(min := LEVEL_MIN);
      InsertKeeps(list, c);
      var r := Insert(list, c);
      EntriesStep(cs);
      NewLevelsStep(cs, Maxima(list));
      hide Entries, Maxima, NewLevels, Insert;
      InsertAllEntries(r.list, cs[1..]);
    }
  }

  lemma {:induction false} NewLevelsStep(cs: seq<Conf>, defined: set<nat>)
    requires cs != [] && NewLevels(cs, defined)
    ensures NewLevels(cs[1..], defined + {cs[0].max}) && cs[0].max !in defined
  {
  }

  /** Whatever list of configurations is read, the intervals follow one another from 0 on. */
  lemma {:induction false} InsertAllKeeps(list: seq<Conf>, cs: seq<Conf>)
    requires Chain(list, LEVEL_MIN)
    ensures Chain(InsertAll(list, cs), LEVEL_MIN)
    decreases |cs|
  {
    if cs != [] {
      var c := cs[0].(min := LEVEL_MIN);
      InsertKeeps(list, c);
      hide Entries, Maxima, Insert, Chain;
      var r := Insert(list, c);
      InsertAllKeeps(if r.Done? then r.list else list, cs[1..]);
    }
  }

  /** In whatever order configurations for different levels are read, the list is the same. */
  lemma {:induction false} OrderDoesNotMatter(cs: seq<Conf>, ds: seq<Conf>)
    requires NewLevels(cs, {}) && NewLevels(ds, {}) && Entries(cs) == Entries(ds)
    ensures InsertAll([], cs) == InsertAll([], ds)
  {
    assert Maxima([]) == {} && Entries([]) == {};
    hide Entries, Maxima, NewLevels, InsertAll;
    InsertAllEntries([], cs);
    InsertAllEntries([], ds);
    ChainUnique(InsertAll([], cs), InsertAll([], ds), LEVEL_MIN);
  }

  // ---- the choice

  /** Intervals from 0 to the highest level. */
  predicate Complete(list: seq<Conf>) {
    list != [] && Chain(list, LEVEL_MIN) && InRange(list) && list[|list| - 1].max == LEVEL_MAX
  }

  lemma {:induction false} ChainExtended(list: seq<Conf>, from: int, max: nat)
    requires list != [] && Chain(list, from) && max >= list[|list| - 1].max
    ensures Chain(list[|list| - 1 := list[|list| - 1].(max := max)], from)
  {
    var n := |list| - 1;
    var r := list[n := list[n].(max := max)];
    if n > 0 {
      ChainExtended(list[1..], list[0].max + 1, max);
      assert r[1..] == list[1..][n - 1 := list[1..][n - 1].(max := max)];
    }
  }

  /** The range check leaves intervals that cover all levels, by extending the last one, if it does not reach the
      end, or by adding the default filter to an empty list. */
  lemma {:induction false} RangedComplete(list: seq<Conf>)
    requires Chain(list, LEVEL_MIN) && InRange(list)
    ensures Complete(Ranged(list))
    ensures var r := Ranged(list); var n := |list| - 1;
      if n < 0 then r == [Conf("Customer", 0, 100)]
      else r[0].min == 0 && r[..n] == list[..n] && r[n..] == [list[n].(max := 100)]
  {
    if list != [] {
      ChainExtended(list, LEVEL_MIN, LEVEL_MAX);
    }
  }

  /** Every level lies in exactly one interval, which is the one that the search finds. */
  lemma {:induction false} SelectsInterval(list: seq<Conf>, level: nat, i: nat)
    requires Complete(list) && level <= 100 && i < |list|
    ensures Select(list, level) < |list|
    ensures list[i].min <= level <= list[i].max <==> i == Select(list, level)
  {
    var k := Select(list, level);
    var last := list[|list| - 1];
    ChainAbove(list, LEVEL_MIN, k);
    if k > 0 {
      assert list[k - 1].max < level;
    }
    if i < k {
      assert list[i].max < level;
    } else if k < i {
      ChainIncreases(list, LEVEL_MIN, k, i);
    }
  }

  // ---- the current configuration

  datatype State = State(list: seq<Conf>, current: nat)

  /** Search again. */
  function ChangeLevel(s: State, level: nat): (u: State)
    ensures u.list == s.list && (s.current < |s.list| ==> u.current < |s.list|)
  {
    if level > LEVEL_MAX then s
    else
      var i := Select(s.list, level);
      if i < |s.list| then s.(current := i) else s
  }

  /** The callback of the backend: nothing to do within the current range. */
  function LevelChanged(s: State, level: nat): (u: State)
    requires s.current < |s.list|
    ensures u.list == s.list && u.current < |s.list|
  {
    if s.list[s.current].min <= level <= s.list[s.current].max then s else ChangeLevel(s, level)
  }

  /** The shortcut of the backend does what searching again would do. */
  lemma {:induction false} ShortcutIsSearch(s: State, level: nat)
    requires Complete(s.list) && s.current < |s.list|
    ensures LevelChanged(s, level) == ChangeLevel(s, level)
  {
    if level <= LEVEL_MAX {
      SelectsInterval(s.list, level, s.current);
    } else {
      assert s.list[s.current].max <= LEVEL_MAX;
    }
  }

  /** The last acceptable level of a sequence of level changes, d if there is none. */
  function LastLevel(d: nat, levels: seq<nat>): (l: nat)
    ensures d <= 100 ==> l <= 100
    decreases |levels|
  {
    if levels == [] then d
    else LastLevel(if levels[0] <= 100 then levels[0] else d, levels[1..])
  }

  function Levels(s: State, levels: seq<nat>): State
    requires s.current < |s.list|
    decreases |levels|
  {
    if levels == [] then s else Levels(LevelChanged(s, levels[0]), levels[1..])
  }

  /** After any sequence of level changes the current configuration is the one interval that holds the last
      acceptable level. */
  lemma {:induction false} CurrentHoldsLevel(s: State, d: nat, levels: seq<nat>)
    requires Complete(s.list) && d <= LEVEL_MAX && s.current == Select(s.list, d) < |s.list|
    ensures var u := Levels(s, levels); var l := LastLevel(d, levels);
      u.list == s.list && u.current < |u.list| && u.list[u.current].min <= l <= u.list[u.current].max
    decreases |levels|
  {
    SelectsInterval(s.list, d, s.current);
    if levels != [] {
      var level := levels[0];
      ShortcutIsSearch(s, level);
      if level <= LEVEL_MAX {
        SelectsInterval(s.list, level, Select(s.list, level));
      }
      hide Complete, Select;
      CurrentHoldsLevel(LevelChanged(s, level), if level <= LEVEL_MAX then level else d, levels[1..]);
    }
  }
}

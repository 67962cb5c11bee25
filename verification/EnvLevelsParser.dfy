/** The parser with its cursor, the growing set of items, and the choice among them. */
module EnvLevelsParser {
  import opened Ids
  import opened EnvLevels

  const SET_INCREASE := 10

  /** The items found so far, in a block with room for whole tens. */
  class LevelSet {
    var item: array<Item>
    var numElem: nat

    ghost predicate Valid()
      reads this
    {
      numElem <= item.Length && item.Length % SET_INCREASE == 0 && item.Length >= SET_INCREASE
    }

    ghost function Items(): seq<Item>
      reads this, item
      requires numElem <= item.Length
    {
      item[..numElem]
    }

    constructor ()
      ensures Valid() && fresh(item) && Items() == []
    {
      item := new Item[SET_INCREASE](_ => Item(NO_ID, NO_ID, 0));
      numElem := 0;
    }

    /** A larger block, which keeps all items. */
    method Increase()
      requires Valid()
      modifies this`item
      ensures Valid() && fresh(item) && item.Length == old(item.Length) + 10
      ensures numElem == old(numElem) && Items() == old(Items())
    {
      var grown := new Item[item.Length + SET_INCREASE](_ => Item(NO_ID, NO_ID, 0));
      var i := 0;
      while i < item.Length
        invariant 0 <= i <= item.Length && item == old(item) && item[..] == old(item[..])
        invariant forall j :: 0 <= j < i ==> grown[j] == item[j]
      {
        grown[i] := item[i];
        i := i + 1;
      }
      item := grown;
    }

    method Add(x: Item)
      requires Valid()
      modifies this, item
      ensures Valid() && (item == old(item) || fresh(item)) && Items() == old(Items()) + [x]
    {
      if numElem == item.Length {
        Increase();
      }
      item[numElem] := x;
      numElem := numElem + 1;
    }
  }

  /** The same characters, none of them ';' or NUL, with small letters for capitals. */
  predicate LoweredTo(t: seq<Byte>, u: seq<Byte>) {
    |t| == |u| && forall j :: 0 <= j < |t| ==>
      && t[j] != 59 && t[j] != 0
      && u[j] as int == if 65 <= t[j] <= 90 then t[j] as int + 32 else t[j] as int
  }

  /** The text of the environment variable and the place that was reached in it. */
  class Reader {
    const text: seq<Byte>
    var env: nat

    ghost predicate Valid()
      reads this
    {
      env <= |text|
    }

    constructor (text: seq<Byte>)
      ensures this.text == text && env == 0 && Valid()
    {
      this.text := text;
      env := 0;
    }

    method ExtractId() returns (ok: bool, id: Id)
      requires Valid()
      modifies this`env
      ensures Valid() && Read(ok, id, env) == ReadId(text, old(env))
    {
      ghost var start := env;
      var chars := [];
      var i := 0;
      while i < 4 && At(text, env) != COLON && At(text, env) != 0
        invariant 0 <= i <= 4 && start <= env <= |text| && chars == text[start..env]
        invariant IdEnd(text, env, 4 - i) == IdEnd(text, start, 4)
      {
        chars := chars + [At(text, env)];
        env := env + 1;
        i := i + 1;
      }
      id := SetId(chars);
      ok := At(text, env) != 0 && At(text, env) == COLON;
    }

    method ToLower() returns (ok: bool, result: seq<Byte>)
      requires Valid()
      modifies this`env
      ensures Valid() && result == LowerText(text, old(env), 7) && env == old(env) + |result|
      ensures LoweredTo(text[old(env)..env], result)
      ensures |result| == 7 || At(text, env) == 0 || At(text, env) == SEMICOLON
      ensures ok <==> At(text, env) == 0 || At(text, env) == SEMICOLON
    {
      hide LowerText;
      ghost var start := env;
      result := [];
      var ch := At(text, env);
      while ch != 0 && |result| < 7 && ch != SEMICOLON
        invariant env <= |text| && ch == At(text, env) && |result| <= 7 && env == start + |result|
        invariant LowerText(text, start, 7) == result + LowerText(text, env, 7 - |result|)
        invariant LoweredTo(text[start..env], result)
        decreases 7 - |result|
      {
        LowerNext(text, env, 7 - |result|, result);
        assert text[start..env + 1] == text[start..env] + [ch];
        result := result + [if 65 <= ch <= 90 then ch + 32 else ch];
        env := env + 1;
        ch := At(text, env);
      }
      LowerEnds(text, env, 7 - |result|);
      ok := ch == 0 || ch == SEMICOLON;
    }

    method ExtractName() returns (ok: bool, level: int)
      requires Valid()
      modifies this`env
      ensures Valid() && Read(ok, level, env) == ReadName(text, old(env))
    {
      hide LowerText, LevelNamed;
      level := 0;
      var full, result := ToLower();
      if !full {
        return false, 0;
      }
      if LevelNamed(result) == 7 {
        return false, 0;
      }
      level := LevelNamed(result);
      if At(text, env) != 0 {
        env := env + 1;
      }
      ok := true;
    }

    method ExtractLevel() returns (ok: bool, level: int)
      requires Valid()
      modifies this`env
      ensures Valid() && Read(ok, level, env) == ReadLevel(text, old(env))
    {
      hide ReadName;
      level := 0;
      if At(text, env) == 45 {
        env := env + 1;
        if At(text, env) == 49 {
          level := -1;
          env := env + 1;
        }
      } else if 48 <= At(text, env) < 55 {
        level := At(text, env) as int - 48;
        env := env + 1;
      } else {
        ok, level := ExtractName();
        if !ok {
          return;
        }
      }
      ok := At(text, env) == SEMICOLON || At(text, env) == 0;
    }

    method ExtractItem() returns (ok: bool, x: Item)
      requires Valid()
      modifies this`env
      ensures Valid() && Read(ok, x, env) == ReadItem(text, old(env))
    {
      hide ReadId, ReadLevel;
      x := Item(NO_ID, NO_ID, 0);
      var id, level;
      ok, id := ExtractId();
      x := x.(apid := id);
      if !ok {
        return;
      }
      env := env + 1;
      ok, id := ExtractId();
      x := x.(ctid := id);
      if !ok {
        return;
      }
      env := env + 1;
      ok, level := ExtractLevel();
      x := x.(level := level);
    }

    /** All items up to the end, or up to one that cannot be read, which is put into the set as well. */
    method ExtractSet() returns (ok: bool, levels: LevelSet)
      requires Valid()
      modifies this`env
      ensures Valid() && fresh(levels) && fresh(levels.item) && levels.Valid()
      ensures Read(ok, levels.Items(), env) == ReadSet(text, old(env))
    {
      hide ReadItem, At;
      levels := new LevelSet();
      ghost var all := ReadSet(text, env);
      OntoNothing(all);
      var done := false;
      while !done
        invariant Valid() && fresh(levels) && fresh(levels.item) && levels.Valid()
        invariant !done ==> all == Onto(levels.Items(), ReadSet(text, env))
        invariant done ==> all == Read(true, levels.Items(), env)
        decreases if done then 0 else 1, |text| - env
      {
        ghost var before, start := levels.Items(), env;
        var x;
        ok, x := ExtractItem();
        levels.Add(x);
        if !ok {
          OntoLast(text, before, start, x, env);
          return;
        }
        ghost var behind := env;
        if At(text, env) == SEMICOLON {
          AtInside(text, env);
          env := env + 1;
        }
        OntoNext(text, before, start, x, behind, env);
        done := At(text, env) == 0;
      }
      ok := true;
    }
  }

  /** Items found before, and what is read from here on. */
  function Onto(before: seq<Item>, r: Read<seq<Item>>): Read<seq<Item>> {
    Read(r.ok, before + r.value, r.pos)
  }

  lemma {:induction false} OntoNothing(r: Read<seq<Item>>)
    ensures Onto([], r) == r
  {
    assert [] + r.value == r.value;
  }

  lemma {:induction false} LowerNext(s: seq<Byte>, pos: nat, n: nat, before: seq<Byte>)
    requires n > 0 && At(s, pos) != 0 && At(s, pos) != SEMICOLON
    ensures pos < |s|
    ensures before + LowerText(s, pos, n) == (before + [Lower(At(s, pos))]) + LowerText(s, pos + 1, n - 1)
  {
    assert before + ([Lower(At(s, pos))] + LowerText(s, pos + 1, n - 1)) == (before + [Lower(At(s, pos))]) + LowerText(s, pos + 1, n - 1);
  }

  lemma {:induction false} LowerEnds(s: seq<Byte>, pos: nat, n: nat)
    requires n == 0 || At(s, pos) == 0 || At(s, pos) == SEMICOLON
    ensures LowerText(s, pos, n) == []
  {
  }

  lemma {:induction false} AtInside(s: seq<Byte>, pos: nat)
    requires At(s, pos) == SEMICOLON
    ensures pos < |s|
  {
  }

  lemma {:induction false} OntoLast(s: seq<Byte>, before: seq<Item>, pos: nat, x: Item, p: nat)
    requires pos <= |s| && ReadItem(s, pos) == Read(false, x, p)
    ensures Onto(before, ReadSet(s, pos)) == Read(false, before + [x], p)
  {
    hide ReadItem, At;
  }

  lemma {:induction false} OntoNext(s: seq<Byte>, before: seq<Item>, pos: nat, x: Item, q: nat, p: nat)
    requires pos <= |s| && ReadItem(s, pos) == Read(true, x, q) && p == (if At(s, q) == SEMICOLON then q + 1 else q) && p <= |s|
    ensures Onto(before, ReadSet(s, pos)) ==
      if At(s, p) == 0 then Read(true, before + [x], p) else Onto(before + [x], ReadSet(s, p))
  {
    hide ReadItem, At;
    if At(s, p) != 0 {
      assert before + ([x] + ReadSet(s, p).value) == (before + [x]) + ReadSet(s, p).value;
    }
  }

  /** The level for a context: that of the first among the items with the highest priority. */
  method AdjustLevel(items: seq<Item>, apid: Id, ctid: Id, level: int) returns (res: int)
    ensures (forall i :: 0 <= i < |items| ==> !Fits(items[i], apid, ctid)) ==> res == level
    ensures (exists i :: 0 <= i < |items| && Fits(items[i], apid, ctid)) ==>
      exists k :: 0 <= k < |items| && IsBest(items, apid, ctid, k) && res == items[k].level
    ensures res == Adjusted(items, apid, ctid, level)
  {
    res := level;
    var prio := 0;
    ghost var best := 0;
    var i := 0;
    while i < |items|
      invariant 0 <= i <= |items|
      invariant prio == 0 ==> res == level && forall j :: 0 <= j < i ==> Priority(items[j], apid, ctid) == 0
      invariant prio != 0 ==> 0 <= best < i && res == items[best].level && prio == Priority(items[best], apid, ctid) > 0
      invariant res == Adjusted(items[..i], apid, ctid, level) && prio == Top(items[..i], apid, ctid)
      invariant forall j :: 0 <= j < i ==> Priority(items[j], apid, ctid) <= prio
      invariant prio != 0 ==> forall j :: 0 <= j < best ==> Priority(items[j], apid, ctid) < prio
    {
      var p := Priority(items[i], apid, ctid);
      assert items[..i + 1][..i] == items[..i];
      if p > prio {
        prio := p;
        res := items[i].level;
        best := i;
        if p == 4 {
          BestIs(items, apid, ctid, i);
          RestIgnored(items, i + 1, apid, ctid, level);
          return;
        }
      }
      i := i + 1;
    }
    FitIsPriority(items, apid, ctid);
    assert items[..i] == items;
    if prio != 0 {
      BestIs(items, apid, ctid, best);
    }
  }

  /** The item fits, says at least as much as every item that fits, and more than those before it. */
  predicate IsBest(items: seq<Item>, apid: Id, ctid: Id, k: nat) {
    && k < |items| && Fits(items[k], apid, ctid)
    && (forall j :: 0 <= j < |items| && Fits(items[j], apid, ctid) ==> AtLeastAsSpecific(items[k], items[j]))
    && (forall j :: 0 <= j < k && Fits(items[j], apid, ctid) ==> !AtLeastAsSpecific(items[j], items[k]))
  }

  lemma {:induction false} FitIsPriority(items: seq<Item>, apid: Id, ctid: Id)
    ensures forall i :: 0 <= i < |items| ==> (Fits(items[i], apid, ctid) <==> Priority(items[i], apid, ctid) > 0)
  {
  }

  lemma {:induction false} BestIs(items: seq<Item>, apid: Id, ctid: Id, k: nat)
    requires k < |items| && Priority(items[k], apid, ctid) > 0
    requires forall j :: 0 <= j < |items| ==> Priority(items[j], apid, ctid) <= Priority(items[k], apid, ctid)
    requires forall j :: 0 <= j < k ==> Priority(items[j], apid, ctid) < Priority(items[k], apid, ctid)
    ensures IsBest(items, apid, ctid, k)
    ensures Fits(items[k], apid, ctid)
  {
    hide Priority, Fits, AtLeastAsSpecific;
    PriorityMeaning(items[k], items[k], apid, ctid);
    forall j | 0 <= j < |items|
      ensures Fits(items[j], apid, ctid) ==> AtLeastAsSpecific(items[k], items[j])
      ensures j < k && Fits(items[j], apid, ctid) ==> !AtLeastAsSpecific(items[j], items[k])
    {
      PriorityMeaning(items[k], items[j], apid, ctid);
      PriorityMeaning(items[j], items[k], apid, ctid);
    }
  }
}

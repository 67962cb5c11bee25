/** Initial log levels from the environment: items "apid:ctid:level" separated by ';'. */
module EnvLevels {
  import opened Ids

  const COLON: Byte := 58
  const SEMICOLON: Byte := 59

  datatype Item = Item(apid: Id, ctid: Id, level: int)

  /** What a reading step gives, even where it fails, and where the cursor is left. */
  datatype Read<T> = Read(ok: bool, value: T, pos: nat)

  /** The character at the cursor, 0 at the end. */
  function At(s: seq<Byte>, pos: nat): Byte {
    if pos < |s| then s[pos] else 0
  }

  // ---- reading

  /** Where the characters of an identifier end: at ':', at the end, or after n of them. */
  function IdEnd(s: seq<Byte>, pos: nat, n: nat): (q: nat)
    ensures pos <= q <= pos + n && (pos <= |s| ==> q <= |s|)
    decreases n
  {
    if n == 0 || At(s, pos) == COLON || At(s, pos) == 0 then pos else IdEnd(s, pos + 1, n - 1)
  }

  function ReadId(s: seq<Byte>, pos: nat): (r: Read<Id>)
    requires pos <= |s|
    ensures pos <= r.pos <= |s| && (r.ok ==> r.pos < |s|)
  {
    var q := IdEnd(s, pos, 4);
    Read(At(s, q) == COLON, SetId(s[pos..q]), q)
  }

  function Lower(c: Byte): Byte {
    if 65 <= c <= 90 then c + 32 else c
  }

  /** At most n characters in lower case, up to ';' or the end. */
  function LowerText(s: seq<Byte>, pos: nat, n: nat): (t: seq<Byte>)
    ensures |t| <= n && (pos <= |s| ==> pos + |t| <= |s|)
    decreases n
  {
    if n == 0 || At(s, pos) == 0 || At(s, pos) == SEMICOLON then [] else [Lower(At(s, pos))] + LowerText(s, pos + 1, n - 1)
  }

  /** The name of a level. */
  function Name(level: int): seq<Byte> {
    match level
    case -1 => [100, 101, 102, 97, 117, 108, 116]
    case 0 => [111, 102, 102]
    case 1 => [102, 97, 116, 97, 108]
    case 2 => [101, 114, 114, 111, 114]
    case 3 => [119, 97, 114, 110, 105, 110, 103]
    case 4 => [105, 110, 102, 111]
    case 5 => [100, 101, 98, 117, 103]
    case _ => [118, 101, 114, 98, 111, 115, 101]
  }

  /** The level with the name, 7 if there is none. */
  function LevelNamed(t: seq<Byte>): int {
    if t == Name(-1) then -1
    else if t == Name(0) then 0
    else if t == Name(1) then 1
    else if t == Name(2) then 2
    else if t == Name(3) then 3
    else if t == Name(4) then 4
    else if t == Name(5) then 5
    else if t == Name(6) then 6
    else 7
  }

  /** A level by its name: it steps over the ';' behind it. */
  function ReadName(s: seq<Byte>, pos: nat): (r: Read<int>)
    requires pos <= |s|
    ensures pos <= r.pos <= |s|
  {
    var t := LowerText(s, pos, 7);
    var q := pos + |t|;
    var level := LevelNamed(t);
    if At(s, q) != 0 && At(s, q) != SEMICOLON then Read(false, 0, q)
    else if level == 7 then Read(false, 0, q)
    else Read(true, level, if At(s, q) != 0 then q + 1 else q)
  }

  /** A level, which must be followed by ';' or the end. */
  function ReadLevel(s: seq<Byte>, pos: nat): (r: Read<int>)
    requires pos <= |s|
    ensures pos <= r.pos <= |s|
  {
    var r :=
      if At(s, pos) == 45 then
        (if At(s, pos + 1) == 49 then Read(true, -1, pos + 2) else Read(true, 0, pos + 1))
      else if 48 <= At(s, pos) < 55 then Read(true, At(s, pos) as int - 48, pos + 1)
      else ReadName(s, pos);
    Read(r.ok && (At(s, r.pos) == SEMICOLON || At(s, r.pos) == 0), r.value, r.pos)
  }

  function ReadItem(s: seq<Byte>, pos: nat): (r: Read<Item>)
    requires pos <= |s|
    ensures pos <= r.pos <= |s| && (r.ok ==> pos < r.pos)
  {
    var a := ReadId(s, pos);
    if !a.ok then Read(false, Item(a.value, NO_ID, 0), a.pos)
    else
      var c := ReadId(s, a.pos + 1);
      if !c.ok then Read(false, Item(a.value, c.value, 0), c.pos)
      else
        var l := ReadLevel(s, c.pos + 1);
        Read(l.ok, Item(a.value, c.value, l.value), l.pos)
  }

  /** Items one after the other; the item that fails is counted, too. */
  function ReadSet(s: seq<Byte>, pos: nat): (r: Read<seq<Item>>)
    requires pos <= |s|
    ensures pos <= r.pos <= |s| && r.value != []
    decreases |s| - pos
  {
    var i := ReadItem(s, pos);
    if !i.ok then Read(false, [i.value], i.pos)
    else
      var p := if At(s, i.pos) == SEMICOLON then i.pos + 1 else i.pos;
      if At(s, p) == 0 then Read(true, [i.value], p)
      else
        var rest := ReadSet(s, p);
        Read(rest.ok, [i.value] + rest.value, rest.pos)
  }

  // ---- printing

  function Digits(level: int): seq<Byte>
    requires -1 <= level <= 6
  {
    if level == -1 then [45, 49] else [48 + level]
  }

  /** `named` tells whether the level is written by its name. */
  function PrintItem(x: Item, named: bool): seq<Byte>
    requires -1 <= x.level <= 6
  {
    Str(x.apid) + [COLON] + Str(x.ctid) + [COLON] + if named then Name(x.level) else Digits(x.level)
  }

  predicate LevelsOk(items: seq<Item>) {
    forall i :: 0 <= i < |items| ==> -1 <= items[i].level <= 6
  }

  function Print(items: seq<Item>, named: seq<bool>): seq<Byte>
    requires LevelsOk(items) && |named| == |items|
  {
    if items == [] then []
    else if |items| == 1 then PrintItem(items[0], named[0])
    else PrintItem(items[0], named[0]) + [SEMICOLON] + Print(items[1..], named[1..])
  }

  // ---- reading back

  /** No ':' in the identifiers. */
  predicate NameOk(i: Id) {
    i.a != COLON && i.b != COLON && i.c != COLON && i.d != COLON
  }

  predicate ItemOk(x: Item) {
    NameOk(x.apid) && NameOk(x.ctid) && -1 <= x.level <= 6
  }

  predicate ItemsOk(items: seq<Item>) {
    forall i :: 0 <= i < |items| ==> ItemOk(items[i])
  }

  /** s continues with t at pos. */
  predicate Has(s: seq<Byte>, pos: nat, t: seq<Byte>) {
    pos + |t| <= |s| && s[pos..pos + |t|] == t
  }

  lemma {:induction false} HasSplit(s: seq<Byte>, pos: nat, t: seq<Byte>, u: seq<Byte>)
    requires Has(s, pos, t + u)
    ensures Has(s, pos, t) && Has(s, pos + |t|, u)
  {
    assert s[pos..pos + |t|] == (t + u)[..|t|];
    assert s[pos + |t|..pos + |t| + |u|] == (t + u)[|t|..];
  }

  lemma {:induction false} IdEnds(s: seq<Byte>, pos: nat, n: nat, k: nat)
    requires k <= n && pos + k < |s| && s[pos + k] == COLON
    requires forall j :: pos <= j < pos + k ==> s[j] != COLON && s[j] != 0
    ensures IdEnd(s, pos, n) == pos + k
    decreases k
  {
    if k > 0 {
      IdEnds(s, pos + 1, n - 1, k - 1);
    }
  }

  lemma {:induction false} SetIdStr(i: Id)
    ensures SetId(Str(i)) == i
  {
  }

  lemma {:induction false} StrPlain(i: Id, j: nat)
    requires NameOk(i) && j < Length(i)
    ensures Str(i)[j] != COLON && Str(i)[j] != 0
  {
  }

  lemma {:induction false} IdRead(s: seq<Byte>, pos: nat, i: Id)
    requires NameOk(i) && Has(s, pos, Str(i) + [COLON])
    ensures ReadId(s, pos) == Read(true, i, pos + Length(i)) && At(s, pos + Length(i)) == COLON
  {
    var k := Length(i);
    HasSplit(s, pos, Str(i), [COLON]);
    assert s[pos + k] == s[pos + k..pos + k + 1][0];
    forall j | pos <= j < pos + k ensures s[j] != COLON && s[j] != 0 {
      assert s[j] == Str(i)[j - pos];
      StrPlain(i, j - pos);
    }
    SetIdStr(i);
    hide Str, SetId, NameOk;
    IdEnds(s, pos, 4, k);
  }

  /** An identifier of five characters or more is refused, the cursor behind the fourth. */
  lemma {:induction false} LongIdRefused(s: seq<Byte>, pos: nat)
    requires pos + 5 <= |s| && forall j :: pos <= j < pos + 5 ==> s[j] != 58 && s[j] != 0
    ensures !ReadId(s, pos).ok && ReadId(s, pos).pos == pos + 4
  {
    assert IdEnd(s, pos + 4, 0) == pos + 4;
    assert IdEnd(s, pos + 3, 1) == pos + 4;
    assert IdEnd(s, pos + 2, 2) == pos + 4;
    assert IdEnd(s, pos + 1, 3) == pos + 4;
  }

  lemma {:induction false} DigitsRead(s: seq<Byte>, pos: nat, level: int)
    requires -1 <= level <= 6 && Has(s, pos, Digits(level))
    ensures var q := pos + |Digits(level)|;
      ReadLevel(s, pos) == Read(At(s, q) == SEMICOLON || At(s, q) == 0, level, q)
  {
    hide ReadName;
    assert s[pos] == s[pos..pos + |Digits(level)|][0];
    assert level == -1 ==> s[pos + 1] == s[pos..pos + 2][1];
  }

  /** The text t is the name u, in small letters or capitals. */
  predicate Spells(t: seq<Byte>, u: seq<Byte>) {
    |t| == |u| && forall j :: 0 <= j < |t| ==> t[j] == u[j] || t[j] as int == u[j] as int - 32
  }

  predicate Letters(u: seq<Byte>) {
    forall j :: 0 <= j < |u| ==> 97 <= u[j] <= 122
  }

  lemma {:induction false} LowerRead(s: seq<Byte>, pos: nat, n: nat, t: seq<Byte>, u: seq<Byte>)
    requires Has(s, pos, t) && |t| <= n && (At(s, pos + |t|) == SEMICOLON || At(s, pos + |t|) == 0)
    requires Letters(u) && Spells(t, u)
    ensures LowerText(s, pos, n) == u
    decreases |t|
  {
    if t != [] {
      assert s[pos] == s[pos..pos + |t|][0];
      assert s[pos + 1..pos + |t|] == s[pos..pos + |t|][1..];
      LowerRead(s, pos + 1, n - 1, t[1..], u[1..]);
    }
  }

  lemma {:induction false} NameIs(level: int)
    requires -1 <= level <= 6
    ensures 0 < |Name(level)| <= 7 && LevelNamed(Name(level)) == level && Letters(Name(level))
  {
  }

  predicate SameText(u: seq<Byte>, t: string) {
    |u| == |t| && forall j :: 0 <= j < |t| ==> u[j] == t[j] as int
  }

  /** The names, letter by letter. */
  lemma {:induction false} NamesSpelt()
    ensures SameText(Name(-1), "default") && SameText(Name(0), "off") && SameText(Name(1), "fatal")
    ensures SameText(Name(2), "error") && SameText(Name(3), "warning") && SameText(Name(4), "info")
    ensures SameText(Name(5), "debug") && SameText(Name(6), "verbose")
  {
  }

  /** A name is read, in small letters or capitals, but the cursor is then behind the ';', where another ';' or
      the end must follow. */
  lemma {:induction false} NamedRead(s: seq<Byte>, pos: nat, level: int, t: seq<Byte>)
    requires -1 <= level <= 6 && |t| == |Name(level)|
    requires forall j :: 0 <= j < |t| ==>
      t[j] == Name(level)[j] || t[j] as int == Name(level)[j] as int - 32
    requires Has(s, pos, t) && (At(s, pos + |t|) == SEMICOLON || At(s, pos + |t|) == 0)
    ensures var q := pos + |t|; var p := if At(s, q) == SEMICOLON then q + 1 else q;
      ReadLevel(s, pos) == Read(At(s, p) == SEMICOLON || At(s, p) == 0, level, p)
  {
    hide LowerText, LevelNamed, Name, ReadName;
    NameIs(level);
    HasHead(s, pos, t);
    ReadNameIs(s, pos, level, t);
  }

  lemma {:induction false} ReadNameIs(s: seq<Byte>, pos: nat, level: int, t: seq<Byte>)
    requires -1 <= level <= 6 && Spells(t, Name(level)) && Has(s, pos, t)
    requires At(s, pos + |t|) == SEMICOLON || At(s, pos + |t|) == 0
    ensures var q := pos + |t|; var p := if At(s, q) == SEMICOLON then q + 1 else q;
      pos <= |s| && ReadName(s, pos) == Read(true, level, p)
  {
    NameIs(level);
    hide Name, LevelNamed, LowerText;
    LowerRead(s, pos, 7, t, Name(level));
  }

  lemma {:induction false} LowerTextAt(s: seq<Byte>, pos: nat, n: nat, j: nat)
    requires j < |LowerText(s, pos, n)|
    ensures pos + j < |s| && LowerText(s, pos, n)[j] == Lower(s[pos + j])
    decreases n
  {
    if j > 0 {
      LowerTextAt(s, pos + 1, n - 1, j - 1);
    }
  }

  lemma {:induction false} LevelOfName(t: seq<Byte>)
    ensures var level := LevelNamed(t); level == 7 || (-1 <= level <= 6 && t == Name(level))
  {
  }

  lemma {:induction false} NameEnds(s: seq<Byte>, pos: nat)
    requires pos <= |s| && ReadName(s, pos).ok
    ensures var t := LowerText(s, pos, 7); var q := pos + |t|;
      LevelNamed(t) != 7 && ReadName(s, pos).value == LevelNamed(t) && (At(s, q) == SEMICOLON || At(s, q) == 0)
  {
    hide LowerText, LevelNamed;
  }

  lemma {:induction false} LowerSpells(s: seq<Byte>, pos: nat)
    requires pos <= |s| && Letters(LowerText(s, pos, 7))
    ensures var t := LowerText(s, pos, 7); Spells(s[pos..pos + |t|], t)
  {
    hide LowerText;
    var t := LowerText(s, pos, 7);
    forall j | 0 <= j < |t| ensures var c := s[pos..pos + |t|][j]; t[j] == c || t[j] as int == c as int + 32 {
      LowerTextAt(s, pos, 7, j);
    }
  }

  /** Nothing but one of the eight names is taken for a level: whatever ReadName accepts spells the name of the
      level, followed by ';' or the end. */
  lemma {:induction false} OnlyNames(s: seq<Byte>, pos: nat)
    requires pos <= |s| && ReadName(s, pos).ok
    ensures var level := ReadName(s, pos).value; var q := pos + |Name(level)|;
      && -1 <= level <= 6 && q <= |s|
      && Spells(s[pos..q], Name(level)) && (At(s, q) == SEMICOLON || At(s, q) == 0)
  {
    hide LowerText, LevelNamed, Name, ReadName, At, Spells, Letters;
    NameEnds(s, pos);
    LevelOfName(LowerText(s, pos, 7));
    NameIs(ReadName(s, pos).value);
    LowerSpells(s, pos);
  }

  /** Everything that is accepted as a level: a digit from 0 to 6, "-1" for -1, a lone '-' for 0, or a name. */
  lemma {:induction false} AcceptedLevels(s: seq<Byte>, pos: nat)
    requires pos <= |s| && ReadLevel(s, pos).ok
    ensures var r := ReadLevel(s, pos);
      || (r.pos == pos + 1 && 0 <= r.value <= 6 && s[pos] == 48 + r.value)
      || (r.pos == pos + 2 && r.value == -1 && s[pos] == 45 && s[pos + 1] == 49)
      || (r.pos == pos + 1 && r.value == 0 && s[pos] == 45)
      || (-1 <= r.value <= 6 && pos + |Name(r.value)| <= |s| && Spells(s[pos..pos + |Name(r.value)|], Name(r.value)))
  {
    hide Name, ReadName;
    if ReadName(s, pos).ok {
      OnlyNames(s, pos);
    }
  }

  function LevelText(x: Item, named: bool): seq<Byte>
    requires -1 <= x.level <= 6
  {
    if named then Name(x.level) else Digits(x.level)
  }

  /** The cursor behind an item: a name is left behind its ';'. */
  function After(s: seq<Byte>, q: nat, named: bool): nat {
    if named && At(s, q) == SEMICOLON then q + 1 else q
  }

  lemma {:induction false} LevelRead(s: seq<Byte>, pos: nat, x: Item, named: bool, r: nat)
    requires -1 <= x.level <= 6 && Has(s, pos, LevelText(x, named)) && r == pos + |LevelText(x, named)|
    requires At(s, r) == SEMICOLON || At(s, r) == 0
    ensures var p := After(s, r, named); ReadLevel(s, pos) == Read(At(s, p) == SEMICOLON || At(s, p) == 0, x.level, p)
  {
    hide Name, Digits, ReadLevel;
    if named {
      NameIs(x.level);
      NamedRead(s, pos, x.level, Name(x.level));
    } else {
      DigitsRead(s, pos, x.level);
    }
  }

  lemma {:induction false} ItemParts(s: seq<Byte>, pos: nat, x: Item, named: bool)
    requires -1 <= x.level <= 6 && Has(s, pos, PrintItem(x, named))
    ensures var p := pos + Length(x.apid); var q := p + 1 + Length(x.ctid);
      && Has(s, pos, Str(x.apid) + [COLON])
      && Has(s, p + 1, Str(x.ctid) + [COLON])
      && Has(s, q + 1, LevelText(x, named))
      && pos + |PrintItem(x, named)| == q + 1 + |LevelText(x, named)|
      && q + 1 <= |s|
  {
    var a, c, l := Str(x.apid) + [COLON], Str(x.ctid) + [COLON], LevelText(x, named);
    assert PrintItem(x, named) == a + (c + l);
    hide Str, LevelText, PrintItem;
    HasSplit(s, pos, a, c + l);
    HasSplit(s, pos + |a|, c, l);
  }

  lemma {:induction false} ReadItemIs(s: seq<Byte>, pos: nat, a: Id, p: nat, c: Id, q: nat, l: Read<int>)
    requires pos <= |s| && p < |s| && q < |s|
    requires ReadId(s, pos) == Read(true, a, p) && ReadId(s, p + 1) == Read(true, c, q) && ReadLevel(s, q + 1) == l
    ensures ReadItem(s, pos) == Read(l.ok, Item(a, c, l.value), l.pos)
  {
    hide ReadId, ReadLevel;
  }

  lemma {:induction false} ItemIds(s: seq<Byte>, pos: nat, x: Item, named: bool)
    requires NameOk(x.apid) && NameOk(x.ctid) && -1 <= x.level <= 6 && Has(s, pos, PrintItem(x, named)) && pos <= |s|
    ensures var p := pos + Length(x.apid); var q := p + 1 + Length(x.ctid);
      && p < |s| && q < |s| && ReadId(s, pos) == Read(true, x.apid, p) && ReadId(s, p + 1) == Read(true, x.ctid, q)
      && Has(s, q + 1, LevelText(x, named)) && pos + |PrintItem(x, named)| == q + 1 + |LevelText(x, named)|
  {
    hide *;
    ItemParts(s, pos, x, named);
    var p := pos + Length(x.apid);
    IdRead(s, pos, x.apid);
    IdRead(s, p + 1, x.ctid);
  }

  lemma {:induction false} ItemRead(s: seq<Byte>, pos: nat, x: Item, named: bool, r: nat)
    requires ItemOk(x) && Has(s, pos, PrintItem(x, named)) && pos <= |s| && r == pos + |PrintItem(x, named)|
    requires At(s, r) == SEMICOLON || At(s, r) == 0
    ensures var p := After(s, r, named); ReadItem(s, pos) == Read(At(s, p) == SEMICOLON || At(s, p) == 0, x, p)
  {
    assert NameOk(x.apid) && NameOk(x.ctid) && -1 <= x.level <= 6;
    hide *;
    ItemIds(s, pos, x, named);
    var p := pos + Length(x.apid);
    var q := p + 1 + Length(x.ctid);
    assert r == q + 1 + |LevelText(x, named)|;
    LevelRead(s, q + 1, x, named, r);
    var l := ReadLevel(s, q + 1);
    assert Item(x.apid, x.ctid, l.value) == x;
    ReadItemIs(s, pos, x.apid, p, x.ctid, q, l);
  }

  /** The first character of a list that is not the end. */
  lemma {:induction false} PrintStarts(items: seq<Item>, named: seq<bool>)
    requires items != [] && LevelsOk(items) && |named| == |items|
    ensures |Print(items, named)| >= 2
    ensures Print(items, named)[0] == if items[0].apid == NO_ID then COLON else items[0].apid.a
  {
    var x := items[0];
    var p := PrintItem(x, named[0]);
    assert |p| >= 2;
    assert p[0] == if x.apid == NO_ID then COLON else x.apid.a by {
      if x.apid == NO_ID {
        assert Str(x.apid) == [];
      } else {
        assert Str(x.apid)[0] == x.apid.a;
      }
    }
    hide PrintItem, Str;
  }

  /** All levels but the last are written as numbers. */
  predicate NumbersFirst(named: seq<bool>) {
    forall i :: 0 <= i < |named| - 1 ==> !named[i]
  }

  /** An identifier does not begin with ';'. */
  predicate StartsOk(items: seq<Item>) {
    forall i :: 0 <= i < |items| ==> items[i].apid.a != SEMICOLON
  }

  lemma {:induction false} HasHead(s: seq<Byte>, pos: nat, t: seq<Byte>)
    requires Has(s, pos, t) && t != []
    ensures pos < |s| && At(s, pos) == t[0]
  {
    assert s[pos] == s[pos..pos + |t|][0];
  }

  lemma {:induction false} PrintMany(items: seq<Item>, named: seq<bool>)
    requires |items| > 1 && LevelsOk(items) && |named| == |items|
    ensures LevelsOk(items[1..])
    ensures Print(items, named) == PrintItem(items[0], named[0]) + ([SEMICOLON] + Print(items[1..], named[1..]))
  {
    hide PrintItem;
  }

  lemma {:induction false} ReadStep(s: seq<Byte>, pos: nat, items: seq<Item>, named: seq<bool>)
    requires |items| > 1 && LevelsOk(items) && |named| == |items|
    requires Has(s, pos, Print(items, named))
    ensures var q := pos + |PrintItem(items[0], named[0])|;
      && At(s, q) == SEMICOLON && q < |s| && Has(s, q + 1, Print(items[1..], named[1..]))
      && Has(s, pos, PrintItem(items[0], named[0]))
      && At(s, q + 1) == (if items[1].apid == NO_ID then COLON else items[1].apid.a) && At(s, q + 1) != 0
      && |Print(items, named)| == |PrintItem(items[0], named[0])| + 1 + |Print(items[1..], named[1..])|
  {
    PrintMany(items, named);
    hide Print, PrintItem, Has, At, LevelsOk;
    var first, rest := PrintItem(items[0], named[0]), Print(items[1..], named[1..]);
    PrintStarts(items[1..], named[1..]);
    HasSplit(s, pos, first, [SEMICOLON] + rest);
    HasSplit(s, pos + |first|, [SEMICOLON], rest);
    HasHead(s, pos + |first|, [SEMICOLON]);
    HasHead(s, pos + |first| + 1, rest);
  }

  lemma {:induction false} ReadLast(s: seq<Byte>, pos: nat, x: Item, named: bool)
    requires ItemOk(x) && Has(s, pos, PrintItem(x, named)) && pos + |PrintItem(x, named)| == |s|
    ensures ReadSet(s, pos) == Read(true, [x], |s|)
  {
    hide Has, PrintItem, ReadItem;
    ItemRead(s, pos, x, named, |s|);
  }

  lemma {:induction false} ReadSetFails(s: seq<Byte>, pos: nat, x: Item, p: nat)
    requires pos <= |s| && ReadItem(s, pos) == Read(false, x, p)
    ensures !ReadSet(s, pos).ok
  {
    hide ReadItem, At;
  }

  lemma {:induction false} ReadSetGoesOn(s: seq<Byte>, pos: nat, x: Item, q: nat)
    requires pos <= |s| && q < |s| && ReadItem(s, pos) == Read(true, x, q) && At(s, q) == SEMICOLON && At(s, q + 1) != 0
    ensures var rest := ReadSet(s, q + 1); ReadSet(s, pos) == Read(rest.ok, [x] + rest.value, rest.pos)
  {
    hide ReadItem, At;
  }

  lemma {:induction false} AfterIs(s: seq<Byte>, q: nat, named: bool)
    requires At(s, q) == SEMICOLON
    ensures After(s, q, named) == if named then q + 1 else q
  {
  }

  /** An item that is not the last one; next is the first character behind its ';'. */
  lemma {:induction false} ReadFront(s: seq<Byte>, pos: nat, x: Item, named: bool, q: nat)
    requires ItemOk(x) && pos <= |s| && Has(s, pos, PrintItem(x, named)) && q == pos + |PrintItem(x, named)|
    requires q < |s| && At(s, q) == SEMICOLON && At(s, q + 1) != 0
    ensures named && At(s, q + 1) != SEMICOLON ==> !ReadSet(s, pos).ok
    ensures !named ==> var rest := ReadSet(s, q + 1); ReadSet(s, pos) == Read(rest.ok, [x] + rest.value, rest.pos)
  {
    assert -1 <= x.level <= 6;
    hide *;
    ItemRead(s, pos, x, named, q);
    AfterIs(s, q, named);
    if named {
      if At(s, q + 1) != SEMICOLON {
        ReadSetFails(s, pos, x, q + 1);
      }
    } else {
      ReadSetGoesOn(s, pos, x, q);
    }
  }

  // ---- a swallowed ';'

  lemma {:induction false} FirstOfSet(s: seq<Byte>, pos: nat)
    requires pos <= |s|
    ensures ReadSet(s, pos).value[0].apid == ReadId(s, pos).value
  {
    hide ReadId, ReadLevel, At;
  }

  lemma {:induction false} ShorterId(i: Id)
    requires i != NO_ID
    ensures |Str(i)[1..]| == Length(i) - 1 && SetId(Str(i)[1..]) != i
  {
  }

  /** Without its first character an identifier is read as another one. */
  lemma {:induction false} IdWithoutFirst(s: seq<Byte>, pos: nat, i: Id)
    requires NameOk(i) && i != NO_ID && Has(s, pos, Str(i) + [COLON])
    ensures pos + 1 <= |s| && ReadId(s, pos + 1).value != i
  {
    var k := Length(i);
    HasSplit(s, pos, Str(i), [COLON]);
    assert s[pos + k] == s[pos + k..pos + k + 1][0];
    forall j | pos <= j < pos + k ensures s[j] != COLON && s[j] != 0 {
      assert s[j] == Str(i)[j - pos];
      StrPlain(i, j - pos);
    }
    ShorterId(i);
    assert s[pos + 1..pos + k] == s[pos..pos + k][1..] == Str(i)[1..];
    hide Str, SetId, NameOk;
    IdEnds(s, pos + 1, 4, k - 1);
  }

  lemma {:induction false} FirstIdThere(s: seq<Byte>, pos: nat, items: seq<Item>, named: seq<bool>)
    requires items != [] && LevelsOk(items) && |named| == |items| && Has(s, pos, Print(items, named))
    ensures Has(s, pos, Str(items[0].apid) + [COLON])
  {
    var x := items[0];
    var first := PrintItem(x, named[0]);
    if |items| > 1 {
      PrintMany(items, named);
      hide Print, PrintItem, Has;
      HasSplit(s, pos, first, [SEMICOLON] + Print(items[1..], named[1..]));
    }
    ItemStartsWithId(s, pos, x, named[0]);
  }

  lemma {:induction false} ItemStartsWithId(s: seq<Byte>, pos: nat, x: Item, named: bool)
    requires -1 <= x.level <= 6 && Has(s, pos, PrintItem(x, named))
    ensures Has(s, pos, Str(x.apid) + [COLON])
  {
    hide *;
    ItemParts(s, pos, x, named);
  }

  /** The name of a level stands before an item whose identifier begins with ';': the character is swallowed
      as a separator, and the identifier that is read is another one. */
  lemma {:induction false} Swallowed(s: seq<Byte>, pos: nat, items: seq<Item>, named: seq<bool>, q: nat)
    requires |items| > 1 && ItemsOk(items) && LevelsOk(items) && |named| == |items| && named[0] && pos <= |s|
    requires Has(s, pos, PrintItem(items[0], named[0])) && q == pos + |PrintItem(items[0], named[0])| < |s|
    requires At(s, q) == SEMICOLON && At(s, q + 1) == SEMICOLON && Has(s, q + 1, Print(items[1..], named[1..]))
    requires items[1].apid != NO_ID
    ensures !(ReadSet(s, pos).ok && ReadSet(s, pos).value == items)
  {
    var x, y := items[0], items[1];
    assert ItemOk(x) && ItemOk(y) && items[1..][0] == y;
    AfterIs(s, q, true);
    hide Has, Print, PrintItem, ReadSet, ReadId, ReadItem, Str;
    ItemRead(s, pos, x, true, q);
    FirstIdThere(s, q + 1, items[1..], named[1..]);
    IdWithoutFirst(s, q + 1, y.apid);
    AfterSeparator(s, pos, x, q + 1);
    if At(s, q + 2) != 0 {
      FirstOfSet(s, q + 2);
    }
  }

  lemma {:induction false} AfterSeparator(s: seq<Byte>, pos: nat, x: Item, p: nat)
    requires pos <= |s| && ReadItem(s, pos) == Read(true, x, p) && At(s, p) == SEMICOLON && p < |s|
    ensures ReadSet(s, pos).value ==
      if At(s, p + 1) == 0 then [x] else [x] + ReadSet(s, p + 1).value
  {
    hide ReadItem, At;
  }

  /** A list is read back exactly if no name stands before the last item. */
  lemma {:induction false} ReadPrinted(s: seq<Byte>, pos: nat, items: seq<Item>, named: seq<bool>)
    requires items != [] && ItemsOk(items) && LevelsOk(items) && |named| == |items|
    requires Has(s, pos, Print(items, named)) && pos + |Print(items, named)| == |s|
    ensures NumbersFirst(named) ==> ReadSet(s, pos) == Read(true, items, |s|)
    ensures !NumbersFirst(named) ==> !(ReadSet(s, pos).ok && ReadSet(s, pos).value == items)
    ensures !NumbersFirst(named) && StartsOk(items) ==> !ReadSet(s, pos).ok
    decreases |items|
  {
    hide Has, PrintItem, ReadSet, ItemOk;
    if |items| == 1 {
      ReadLast(s, pos, items[0], named[0]);
      assert items == [items[0]];
    } else {
      assert ItemOk(items[0]);
      var q := pos + |PrintItem(items[0], named[0])|;
      ReadStep(s, pos, items, named);
      ReadFront(s, pos, items[0], named[0], q);
      NumbersStep(named);
      assert items[1].apid.a != SEMICOLON || !StartsOk(items);
      assert items == [items[0]] + items[1..];
      hide Print;
      if !named[0] {
        ReadPrinted(s, q + 1, items[1..], named[1..]);
        if StartsOk(items) {
          StartsStep(items);
        }
        var rest := ReadSet(s, q + 1);
        assert ([items[0]] + rest.value)[1..] == rest.value;
      } else if At(s, q + 1) == SEMICOLON {
        Swallowed(s, pos, items, named, q);
      }
    }
  }

  lemma {:induction false} NumbersStep(named: seq<bool>)
    requires |named| > 1
    ensures NumbersFirst(named) <==> !named[0] && NumbersFirst(named[1..])
  {
    if !named[0] && NumbersFirst(named[1..]) {
      forall i | 0 <= i < |named| - 1 ensures !named[i] {
        assert i > 0 ==> named[i] == named[1..][i - 1];
      }
    }
    if NumbersFirst(named) {
      forall i | 0 <= i < |named[1..]| - 1 ensures !named[1..][i] {
        assert named[1..][i] == named[i + 1];
      }
    }
  }

  lemma {:induction false} StartsStep(items: seq<Item>)
    requires items != [] && StartsOk(items)
    ensures StartsOk(items[1..])
  {
  }

  lemma {:induction false} WholeText(t: seq<Byte>)
    ensures Has(t, 0, t)
  {
    assert t[0..|t|] == t;
  }

  /** Printing a list of items and parsing it gives the list back, the cursor at the end, if the levels are
      numbers; identifiers may hold any characters but ':' and NUL. */
  lemma {:induction false} NumbersRoundTrip(items: seq<Item>)
    requires items != [] && ItemsOk(items) && LevelsOk(items)
    ensures var t := Print(items, Numbers(|items|)); ReadSet(t, 0) == Read(true, items, |t|)
  {
    var named := Numbers(|items|);
    WholeText(Print(items, named));
    hide Print, ReadSet, ItemOk;
    ReadPrinted(Print(items, named), 0, items, named);
  }

  function Numbers(n: nat): (r: seq<bool>)
    ensures |r| == n && forall i :: 0 <= i < n ==> !r[i]
  {
    seq(n, _ => false)
  }

  /** A printed list is read back if and only if a level is written by its name in the last item only: the
      parser steps over the ';' behind a name. Unless an identifier begins with ';', it is refused otherwise. */
  lemma {:induction false} NamesRoundTrip(items: seq<Item>, named: seq<bool>)
    requires items != [] && ItemsOk(items) && LevelsOk(items) && |named| == |items|
    ensures var t := Print(items, named); ReadSet(t, 0) == Read(true, items, |t|) <==> NumbersFirst(named)
    ensures var t := Print(items, named); StartsOk(items) ==> (ReadSet(t, 0).ok <==> NumbersFirst(named))
  {
    WholeText(Print(items, named));
    hide Print, ReadSet, ItemOk, NumbersFirst, StartsOk;
    ReadPrinted(Print(items, named), 0, items, named);
  }

  const A := Id4(65, 0, 0, 0)
  const X := Id4(88, 0, 0, 0)

  lemma {:induction false} TextOf(level: int, named: bool)
    requires level == 4 || level == 2
    ensures PrintItem(Item(A, X, level), named) == [65, COLON, 88, COLON] + if named then Name(level) else [48 + level]
  {
    assert Str(A) == [65] && Str(X) == [88];
    hide Str, Name;
  }

  lemma {:induction false} TextOfTwo(named: bool)
    ensures Print([Item(A, X, 4), Item(A, X, 2)], [named, false])
         == [65, COLON, 88, COLON] + (if named then Name(4) else [52]) + [SEMICOLON, 65, COLON, 88, COLON, 50]
  {
    TextOf(4, named);
    TextOf(2, false);
    var items, names := [Item(A, X, 4), Item(A, X, 2)], [named, false];
    assert items[1..] == [Item(A, X, 2)] && names[1..] == [false];
    hide PrintItem, Name;
    assert Print(items[1..], names[1..]) == [65, COLON, 88, COLON] + [50];
    assert Print(items, names) == PrintItem(items[0], named) + [SEMICOLON] + ([65, COLON, 88, COLON] + [50]);
  }

  /** "A:X:info;A:X:2" is refused, for the name stands before the last item; "A:X:4;A:X:2" is accepted. */
  lemma {:induction false} NameBeforeLast()
    ensures !ReadSet([65, COLON, 88, COLON] + Name(4) + [SEMICOLON, 65, COLON, 88, COLON, 50], 0).ok
    ensures ReadSet([65, COLON, 88, COLON] + [52] + [SEMICOLON, 65, COLON, 88, COLON, 50], 0).ok
  {
    var items := [Item(A, X, 4), Item(A, X, 2)];
    hide Print, ReadSet, Name;
    TextOfTwo(true);
    TextOfTwo(false);
    NamesRoundTrip(items, [true, false]);
    NamesRoundTrip(items, [false, false]);
    assert [true, false][0];
  }

  // ---- a refused text

  /** The items of a refused text are all read but for the last one, at which reading ended. */
  lemma {:induction false} RefusedIsLast(s: seq<Byte>, pos: nat)
    requires pos <= |s|
    ensures var r := ReadSet(s, pos); var n := |r.value|;
      exists p :: pos <= p <= |s| && ReadItem(s, p).value == r.value[n - 1] && ReadItem(s, p).ok == r.ok
    ensures var r := ReadSet(s, pos); var n := |r.value|;
      forall j :: 0 <= j < n - 1 ==> exists p :: pos <= p <= |s| && ReadItem(s, p).ok && ReadItem(s, p).value == r.value[j]
    decreases |s| - pos
  {
    hide ReadItem, At;
    var i := ReadItem(s, pos);
    if i.ok {
      var p := if At(s, i.pos) == SEMICOLON then i.pos + 1 else i.pos;
      if At(s, p) != 0 {
        AtMeansInside(s, p);
        RefusedIsLast(s, p);
        var rest := ReadSet(s, p);
        assert ReadSet(s, pos) == Read(rest.ok, [i.value] + rest.value, rest.pos);
      }
    }
  }

  lemma {:induction false} AtMeansInside(s: seq<Byte>, p: nat)
    requires At(s, p) != 0
    ensures p < |s|
  {
  }

  /** "A:X:no" is refused, and sets level 0 for A and X. */
  lemma {:induction false} RefusedItemCounts()
    ensures ReadSet([65, COLON, 88, COLON, 110, 111], 0) == Read(false, [Item(Id4(65, 0, 0, 0), Id4(88, 0, 0, 0), 0)], 6)
  {
    var s: seq<Byte> := [65, COLON, 88, COLON, 110, 111];
    IdEnds(s, 0, 4, 1);
    IdEnds(s, 2, 4, 1);
    assert s[0..1] == [65] && s[2..3] == [88];
    assert LowerText(s, 6, 5) == [];
    assert LowerText(s, 5, 6) == [111];
    assert LowerText(s, 4, 7) == [110, 111];
    hide IdEnd, LowerText;
    assert LevelNamed([110, 111]) == 7 by {
      NoSuchName([110, 111]);
    }
  }

  lemma {:induction false} NoSuchName(t: seq<Byte>)
    requires t == [110, 111]
    ensures LevelNamed(t) == 7
  {
  }

  // ---- choosing

  /** How an item fits: not at all, or by how much it says. */
  function Priority(x: Item, apid: Id, ctid: Id): (p: int)
    ensures 0 <= p <= 4
  {
    if x.apid == NO_ID then
      (if x.ctid == NO_ID then 1 else if x.ctid == ctid then 2 else 0)
    else if x.apid == apid then
      (if x.ctid == NO_ID then 3 else if x.ctid == ctid then 4 else 0)
    else
      0
  }

  /** An item fits if neither of the identifiers it gives differs. */
  predicate Fits(x: Item, apid: Id, ctid: Id) {
    (x.apid == NO_ID || x.apid == apid) && (x.ctid == NO_ID || x.ctid == ctid)
  }

  /** x says at least as much as y: an application weighs more than a context. */
  predicate AtLeastAsSpecific(x: Item, y: Item) {
    (x.apid != NO_ID && y.apid == NO_ID) || ((x.apid != NO_ID || y.apid == NO_ID) && (x.ctid != NO_ID || y.ctid == NO_ID))
  }

  lemma {:induction false} PriorityMeaning(x: Item, y: Item, apid: Id, ctid: Id)
    ensures Priority(x, apid, ctid) > 0 <==> Fits(x, apid, ctid)
    ensures Fits(x, apid, ctid) && Fits(y, apid, ctid) ==>
      (Priority(x, apid, ctid) >= Priority(y, apid, ctid) <==> AtLeastAsSpecific(x, y))
  {
  }

  function Top(items: seq<Item>, apid: Id, ctid: Id): (p: nat)
    ensures p <= 4
  {
    if items == [] then 0
    else
      var n := |items| - 1;
      var p, q := Top(items[..n], apid, ctid), Priority(items[n], apid, ctid);
      if q > p then q else p
  }

  /** The level that is chosen: that of the first item with the highest priority, the given one if none fits. */
  function Adjusted(items: seq<Item>, apid: Id, ctid: Id, level: int): int {
    if items == [] then level
    else
      var n := |items| - 1;
      if Priority(items[n], apid, ctid) > Top(items[..n], apid, ctid) then items[n].level
      else Adjusted(items[..n], apid, ctid, level)
  }

  lemma {:induction false} TopIsHighest(items: seq<Item>, apid: Id, ctid: Id)
    ensures forall j :: 0 <= j < |items| ==> Priority(items[j], apid, ctid) <= Top(items, apid, ctid)
    ensures Top(items, apid, ctid) > 0 ==> exists j :: 0 <= j < |items| && Priority(items[j], apid, ctid) == Top(items, apid, ctid)
  {
    hide Priority;
    if items != [] {
      var n := |items| - 1;
      TopIsHighest(items[..n], apid, ctid);
      assert forall j :: 0 <= j < n ==> items[..n][j] == items[j];
    }
  }

  /** An earlier item fits and says at least as much as x. */
  predicate Outdone(items: seq<Item>, x: Item, apid: Id, ctid: Id) {
    exists j :: 0 <= j < |items| && Fits(items[j], apid, ctid) && AtLeastAsSpecific(items[j], x)
  }

  lemma {:induction false} OutdoneIsTop(items: seq<Item>, x: Item, apid: Id, ctid: Id)
    requires Fits(x, apid, ctid)
    ensures Outdone(items, x, apid, ctid) <==> Top(items, apid, ctid) >= Priority(x, apid, ctid)
  {
    TopIsHighest(items, apid, ctid);
    PriorityMeaning(x, x, apid, ctid);
    hide Priority, Fits, AtLeastAsSpecific, Top;
    if Outdone(items, x, apid, ctid) {
      var j :| 0 <= j < |items| && Fits(items[j], apid, ctid) && AtLeastAsSpecific(items[j], x);
      PriorityMeaning(items[j], x, apid, ctid);
    }
    if Top(items, apid, ctid) >= Priority(x, apid, ctid) {
      var j :| 0 <= j < |items| && Priority(items[j], apid, ctid) == Top(items, apid, ctid);
      PriorityMeaning(items[j], x, apid, ctid);
    }
  }

  /** The last item of a set leaves the level of a context as it is if and only if it does not fit, or an
      earlier item that fits says at least as much, or its level is the one chosen without it. */
  lemma {:induction false} LastItemMatters(items: seq<Item>, apid: Id, ctid: Id, level: int)
    requires items != []
    ensures var n := |items| - 1; var x, front := items[n], items[..n];
      Adjusted(items, apid, ctid, level) == Adjusted(front, apid, ctid, level) <==>
        || !Fits(x, apid, ctid)
        || Outdone(front, x, apid, ctid)
        || x.level == Adjusted(front, apid, ctid, level)
  {
    var n := |items| - 1;
    PriorityMeaning(items[n], items[n], apid, ctid);
    if Fits(items[n], apid, ctid) {
      OutdoneIsTop(items[..n], items[n], apid, ctid);
    }
    hide Priority, Fits, Outdone, Top;
  }

  /** For every text that is refused: the item that failed stands last in the set, and it changes the level of
      a context unless it does not fit, is outdone, or has the level that is chosen anyway. */
  lemma {:induction false} RefusedItem(s: seq<Byte>, apid: Id, ctid: Id, level: int)
    requires !ReadSet(s, 0).ok
    ensures var items := ReadSet(s, 0).value; var n := |items| - 1; var x, front := items[n], items[..n];
      && (exists p :: 0 <= p <= |s| && !ReadItem(s, p).ok && ReadItem(s, p).value == x)
      && (Adjusted(items, apid, ctid, level) == Adjusted(front, apid, ctid, level) <==>
            || !Fits(x, apid, ctid)
            || Outdone(front, x, apid, ctid)
            || x.level == Adjusted(front, apid, ctid, level))
  {
    hide *;
    RefusedIsLast(s, 0);
    LastItemMatters(ReadSet(s, 0).value, apid, ctid, level);
  }

  /** An empty variable is refused, and sets level 0 for every context. */
  lemma {:induction false} EmptyTextSwitchesOff(apid: Id, ctid: Id, level: int)
    ensures ReadSet([], 0) == Read(false, [Item(NO_ID, NO_ID, 0)], 0)
    ensures Adjusted(ReadSet([], 0).value, apid, ctid, level) == 0
  {
    var items := [Item(NO_ID, NO_ID, 0)];
    assert ReadSet([], 0).value == items;
    assert items[..0] == [];
  }

  /** Behind an item of the highest priority nothing changes. */
  lemma {:induction false} RestIgnored(items: seq<Item>, i: nat, apid: Id, ctid: Id, level: int)
    requires i <= |items| && Top(items[..i], apid, ctid) == 4
    ensures Adjusted(items, apid, ctid, level) == Adjusted(items[..i], apid, ctid, level) && Top(items, apid, ctid) == 4
    decreases |items|
  {
    var n := |items| - 1;
    if i < |items| {
      assert items[..n][..i] == items[..i];
      RestIgnored(items[..n], i, apid, ctid, level);
    } else {
      assert items[..i] == items;
    }
  }
}

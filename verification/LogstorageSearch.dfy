/** The search that a new context makes through the filters of a device, with its early end. */
module LogstorageSearch {
  import opened Ids
  import opened Registry
  import opened LevelScan
  import opened LogstorageKeys
  import opened Logstorage
  import opened LogstorageLevels

  /** How many of the first i keys a filter has. */
  function HitsUpTo(f: Filter, ks: seq<Key>, i: nat): (n: nat)
    requires i <= |ks|
    ensures n <= i
  {
    if i == 0 then 0 else HitsUpTo(f, ks, i - 1) + (if HasKey(f.keys, Render(ks[i - 1])) then 1 else 0)
  }

  /** What the search has counted after the first i keys: filters with several of them count several times. */
  function Total(dev: Device, ks: seq<Key>, i: nat): nat
    requires i <= |ks|
  {
    if dev == [] then 0 else HitsUpTo(dev[0], ks, i) + Total(dev[1..], ks, i)
  }

  lemma {:induction false} TotalStep(dev: Device, ks: seq<Key>, i: nat)
    requires i < |ks|
    ensures Total(dev, ks, i + 1) == Total(dev, ks, i) + |ListFind(dev, Render(ks[i]))|
    ensures Total(dev, ks, 0) == 0
  {
    hide HasKey, Render;
    if dev != [] {
      TotalStep(dev[1..], ks, i);
    }
  }

  /** The counter reaches the number of filters while a filter is still to be found. */
  predicate StopsAt(dev: Device, ks: seq<Key>, f: Filter, i: nat)
    requires i < |ks|
  {
    Total(dev, ks, i + 1) == |dev| && HitsUpTo(f, ks, i + 1) == 0
  }

  predicate MissedFrom(dev: Device, ks: seq<Key>, f: Filter, i: nat)
    requires i <= |ks|
  {
    exists j :: i <= j < |ks| && StopsAt(dev, ks, f, j)
  }

  /** Some filter has one of the keys, but the search ends before it. */
  predicate CutShort(dev: Device, ks: seq<Key>) {
    exists i :: 0 <= i < |dev| && HitsUpTo(dev[i], ks, |ks|) > 0 && MissedFrom(dev, ks, dev[i], 0)
  }

  lemma {:induction false} HitsGrow(f: Filter, ks: seq<Key>, i: nat, j: nat)
    requires i <= j <= |ks|
    ensures HitsUpTo(f, ks, i) <= HitsUpTo(f, ks, j)
  {
    hide HasKey, Render;
    if i < j {
      HitsGrow(f, ks, i, j - 1);
    }
  }

  /** The filters found from key i on: those not found before, unless the search stops ahead of them. */
  lemma {:induction false} FoundFromKey(dev: Device, ks: seq<Key>, f: Filter, i: nat)
    requires i <= |ks| && f in dev && HitsUpTo(f, ks, i) == 0
    ensures f in ConfigFrom(dev, ks, Total(dev, ks, i), i) <==> HitsUpTo(f, ks, |ks|) > 0 && !MissedFrom(dev, ks, f, i)
    decreases |ks| - i
  {
    hide HasKey, Render, Total, ListFind;
    if i < |ks| {
      TotalStep(dev, ks, i);
      if HasKey(f.keys, Render(ks[i])) {
        HitsGrow(f, ks, i + 1, |ks|);
        forall j | i <= j < |ks| ensures !StopsAt(dev, ks, f, j) {
          HitsGrow(f, ks, i + 1, j + 1);
        }
      } else {
        FoundFromKey(dev, ks, f, i + 1);
        MissedStep(dev, ks, f, i);
      }
    }
  }

  lemma {:induction false} MissedStep(dev: Device, ks: seq<Key>, f: Filter, i: nat)
    requires i < |ks|
    ensures MissedFrom(dev, ks, f, i) <==> StopsAt(dev, ks, f, i) || MissedFrom(dev, ks, f, i + 1)
  {
    hide StopsAt;
  }

  lemma {:induction false} OnlyFromDevice(dev: Device, ks: seq<Key>, n: nat, i: nat, f: Filter)
    requires i <= |ks| && f in ConfigFrom(dev, ks, n, i)
    ensures f in dev && HitsUpTo(f, ks, |ks|) > 0
    decreases |ks| - i
  {
    hide HasKey, Render;
    if i < |ks| {
      var found := ListFind(dev, Render(ks[i]));
      if f in found {
        HitsGrow(f, ks, i + 1, |ks|);
      } else {
        OnlyFromDevice(dev, ks, n + |found|, i + 1, f);
      }
    }
  }

  /** The search finds all filters that have one of the keys if and only if it is not cut short. */
  lemma {:induction false} SearchComplete(dev: Device, ks: seq<Key>)
    ensures !CutShort(dev, ks) <==>
      forall f :: f in ConfigFrom(dev, ks, 0, 0) <==> f in dev && HitsUpTo(f, ks, |ks|) > 0
  {
    hide ConfigFrom, MissedFrom, HasKey, Total;
    NothingCounted(dev, ks);
    forall f | f in dev ensures f in ConfigFrom(dev, ks, 0, 0) <==> HitsUpTo(f, ks, |ks|) > 0 && !MissedFrom(dev, ks, f, 0) {
      FoundFromKey(dev, ks, f, 0);
    }
    forall f | f in ConfigFrom(dev, ks, 0, 0) ensures f in dev {
      OnlyFromDevice(dev, ks, 0, 0, f);
    }
    if CutShort(dev, ks) {
      var i :| 0 <= i < |dev| && HitsUpTo(dev[i], ks, |ks|) > 0 && MissedFrom(dev, ks, dev[i], 0);
      assert dev[i] in dev;
    }
  }

  lemma {:induction false} NothingCounted(dev: Device, ks: seq<Key>)
    ensures Total(dev, ks, 0) == 0
  {
    if dev != [] {
      NothingCounted(dev[1..], ks);
    }
  }

  // ---- the seven keys and the six places where the search may end

  predicate Finds(dev: Device, ks: seq<Key>, i: nat, found: seq<Filter>) {
    i < |ks| && ListFind(dev, Render(ks[i])) == found
  }

  lemma {:induction false} SearchStep(dev: Device, ks: seq<Key>, n: nat, i: nat, found: seq<Filter>)
    requires Finds(dev, ks, i, found)
    ensures ConfigFrom(dev, ks, n, i)
      == found + if n + |found| == |dev| then [] else ConfigFrom(dev, ks, n + |found|, i + 1)
  {
    hide ListFind, Render;
    assert found + [] == found;
  }

  lemma {:induction false} LastSteps(dev: Device, ks: seq<Key>, n: nat, e: seq<Filter>, g: seq<Filter>, h: seq<Filter>)
    requires |ks| == 7 && Finds(dev, ks, 4, e) && Finds(dev, ks, 5, g) && Finds(dev, ks, 6, h)
    ensures ConfigFrom(dev, ks, n, 4)
      == e + if n + |e| == |dev| then [] else
         g + if n + |e| + |g| == |dev| then [] else h
  {
    hide Finds, ConfigFrom;
    SearchStep(dev, ks, n, 4, e);
    SearchStep(dev, ks, n + |e|, 5, g);
    SearchStep(dev, ks, n + |e| + |g|, 6, h);
    SearchEnds(dev, ks, n + |e| + |g| + |h|);
    hide *;
    assert h + [] == h;
  }

  lemma {:induction false} SearchEnds(dev: Device, ks: seq<Key>, n: nat)
    ensures ConfigFrom(dev, ks, n, |ks|) == []
  {
  }

  lemma {:induction false} FirstSteps(dev: Device, ks: seq<Key>, a: seq<Filter>, b: seq<Filter>, c: seq<Filter>, d: seq<Filter>)
    requires |ks| == 7 && Finds(dev, ks, 0, a) && Finds(dev, ks, 1, b) && Finds(dev, ks, 2, c) && Finds(dev, ks, 3, d)
    ensures ConfigFrom(dev, ks, 0, 0)
      == a + if |a| == |dev| then [] else
         b + if |a| + |b| == |dev| then [] else
         c + if |a| + |b| + |c| == |dev| then [] else
         d + if |a| + |b| + |c| + |d| == |dev| then [] else ConfigFrom(dev, ks, |a| + |b| + |c| + |d|, 4)
  {
    hide *;
    SearchStep(dev, ks, 0, 0, a);
    SearchStep(dev, ks, |a|, 1, b);
    SearchStep(dev, ks, |a| + |b|, 2, c);
    SearchStep(dev, ks, |a| + |b| + |c|, 3, d);
  }

  lemma {:induction false} TriedTexts(ecu: seq<Byte>, apid: seq<Byte>, ctid: seq<Byte>)
    ensures var ks := Tried(ecu, apid, ctid);
      && Render(ks[0]) == [58] + apid + [58] && Render(ks[1]) == [58, 58] + ctid
      && Render(ks[2]) == [58] + apid + [58] + ctid
      && Render(ks[3]) == ecu + [58] + apid + [58] + ctid
      && Render(ks[4]) == ecu + [58] + apid + [58] && Render(ks[5]) == ecu + [58, 58] + ctid
      && Render(ks[6]) == ecu + [58, 58]
  {
  }

  /** The filters of a device for a context: those with the key ":apid:", then those with "::ctid",
      ":apid:ctid", "ecu:apid:ctid", "ecu:apid:", "ecu::ctid" and "ecu::". The search ends as soon as as many
      were found as there are filters. */
  lemma {:induction false} ConfigInOrder(dev: Device, ecu: seq<Byte>, apid: seq<Byte>, ctid: seq<Byte>)
    ensures var a, b := ListFind(dev, [58] + apid + [58]), ListFind(dev, [58, 58] + ctid);
      var c, d := ListFind(dev, [58] + apid + [58] + ctid), ListFind(dev, ecu + [58] + apid + [58] + ctid);
      var e, g := ListFind(dev, ecu + [58] + apid + [58]), ListFind(dev, ecu + [58, 58] + ctid);
      var h, n := ListFind(dev, ecu + [58, 58]), |dev|;
      GetConfig(dev, ecu, apid, ctid)
        == a + if |a| == n then [] else
           b + if |a| + |b| == n then [] else
           c + if |a| + |b| + |c| == n then [] else
           d + if |a| + |b| + |c| + |d| == n then [] else
           e + if |a| + |b| + |c| + |d| + |e| == n then [] else
           g + if |a| + |b| + |c| + |d| + |e| + |g| == n then [] else h
  {
    TriedTexts(ecu, apid, ctid);
    var a, b := ListFind(dev, [58] + apid + [58]), ListFind(dev, [58, 58] + ctid);
    var c, d := ListFind(dev, [58] + apid + [58] + ctid), ListFind(dev, ecu + [58] + apid + [58] + ctid);
    var e, g := ListFind(dev, ecu + [58] + apid + [58]), ListFind(dev, ecu + [58, 58] + ctid);
    var h, ks := ListFind(dev, ecu + [58, 58]), Tried(ecu, apid, ctid);
    assert GetConfig(dev, ecu, apid, ctid) == ConfigFrom(dev, ks, 0, 0);
    FirstFound(dev, ks);
    hide *;
    FirstSteps(dev, ks, a, b, c, d);
    LastSteps(dev, ks, |a| + |b| + |c| + |d|, e, g, h);
  }

  /** What the seven keys find. */
  lemma {:induction false} FirstFound(dev: Device, ks: seq<Key>)
    requires |ks| == 7
    ensures forall i :: 0 <= i < 7 ==> Finds(dev, ks, i, ListFind(dev, Render(ks[i])))
  {
  }

  /** A filter is found if and only if it has one of the first two keys, or a later one that the search comes to:
      the numbers found before never add up to the number of filters. */
  lemma {:induction false} FoundExactly(dev: Device, ecu: seq<Byte>, apid: seq<Byte>, ctid: seq<Byte>, f: Filter)
    requires f in dev
    ensures var a, b := [58] + apid + [58], [58, 58] + ctid;
      var c, d := [58] + apid + [58] + ctid, ecu + [58] + apid + [58] + ctid;
      var e, g, h := ecu + [58] + apid + [58], ecu + [58, 58] + ctid, ecu + [58, 58];
      var two := |ListFind(dev, a)| + |ListFind(dev, b)|;
      var three := two + |ListFind(dev, c)|;
      var four := three + |ListFind(dev, d)|;
      var five := four + |ListFind(dev, e)|;
      var six := five + |ListFind(dev, g)|;
      f in GetConfig(dev, ecu, apid, ctid) <==>
        || HasKey(f.keys, a) || HasKey(f.keys, b)
        || (HasKey(f.keys, c) && two != |dev|)
        || (HasKey(f.keys, d) && two != |dev| && three != |dev|)
        || (HasKey(f.keys, e) && two != |dev| && three != |dev| && four != |dev|)
        || (HasKey(f.keys, g) && two != |dev| && three != |dev| && four != |dev| && five != |dev|)
        || (HasKey(f.keys, h) && two != |dev| && three != |dev| && four != |dev| && five != |dev| && six != |dev|)
  {
    ConfigInOrder(dev, ecu, apid, ctid);
    ListFindAll(dev, [58] + apid + [58], f);
    hide HasKey, GetConfig;
  }

  /** Where all filters have a key, a given one has it. */
  lemma {:induction false} ListFindAll(dev: Device, s: seq<Byte>, f: Filter)
    requires f in dev
    ensures |ListFind(dev, s)| <= |dev|
    ensures |ListFind(dev, s)| == |dev| ==> HasKey(f.keys, s)
  {
    hide HasKey;
    if f != dev[0] {
      ListFindAll(dev[1..], s, f);
    } else {
      ListFindFew(dev[1..], s);
    }
  }

  lemma {:induction false} ListFindFew(dev: Device, s: seq<Byte>)
    ensures |ListFind(dev, s)| <= |dev|
  {
    hide HasKey;
    if dev != [] {
      ListFindFew(dev[1..], s);
    }
  }

  // ---- a simple check

  /** No filter has two of the keys. */
  predicate NoDouble(dev: Device, ks: seq<Key>) {
    forall i :: 0 <= i < |dev| ==> HitsUpTo(dev[i], ks, |ks|) <= 1
  }

  lemma {:induction false} TotalBound(dev: Device, ks: seq<Key>, i: nat)
    requires NoDouble(dev, ks) && i <= |ks|
    ensures Total(dev, ks, i) <= |dev|
    ensures (exists k :: 0 <= k < |dev| && HitsUpTo(dev[k], ks, i) == 0) ==> Total(dev, ks, i) < |dev|
  {
    hide HasKey, Render, HitsUpTo;
    if dev != [] {
      HitsGrow(dev[0], ks, i, |ks|);
      assert forall k :: 0 <= k < |dev[1..]| ==> dev[1..][k] == dev[k + 1];
      TotalBound(dev[1..], ks, i);
      if k :| 0 <= k < |dev| && HitsUpTo(dev[k], ks, i) == 0 {
        assert k > 0 ==> dev[1..][k - 1] == dev[k];
      }
    }
  }

  /** Where no filter has two of the keys, nothing is missed. */
  lemma {:induction false} NoDoubleSuffices(dev: Device, ks: seq<Key>)
    requires NoDouble(dev, ks)
    ensures !CutShort(dev, ks)
  {
    hide HitsUpTo, Total, NoDouble;
    if CutShort(dev, ks) {
      var i :| 0 <= i < |dev| && HitsUpTo(dev[i], ks, |ks|) > 0 && MissedFrom(dev, ks, dev[i], 0);
      var j :| 0 <= j < |ks| && StopsAt(dev, ks, dev[i], j);
      TotalBound(dev, ks, j + 1);
      assert false;
    }
  }

  // ---- the level of a new context

  /** The keys tried are those that cover the context. */
  lemma {:induction false} TriedKey(key: Key, ecu: seq<Byte>, c: Context)
    requires KeyOk(key)
    ensures Covers(key, ecu, c) <==> key in Tried(ecu, Str(c.apid), Str(c.ctid))
  {
    hide NamesOk, Str;
    var ks := Tried(ecu, Str(c.apid), Str(c.ctid));
    if Covers(key, ecu, c) {
      assert ks[0] in ks && ks[1] in ks && ks[2] in ks && ks[3] in ks && ks[4] in ks && ks[5] in ks && ks[6] in ks;
    }
  }

  lemma {:induction false} HasOne(f: Filter, ks: seq<Key>, i: nat)
    requires i <= |ks|
    ensures HitsUpTo(f, ks, i) > 0 <==> exists j :: 0 <= j < i && HasKey(f.keys, Render(ks[j]))
  {
    hide HasKey, Render;
    if i > 0 {
      HasOne(f, ks, i - 1);
    }
  }

  lemma {:induction false} HitIsTried(f: Filter, ecu: seq<Byte>, c: Context)
    requires KeysOk(f.keys)
    ensures var ks := Tried(ecu, Str(c.apid), Str(c.ctid));
      Hits(f.keys, ecu, c) <==> HitsUpTo(f, ks, |ks|) > 0
  {
    var ks := Tried(ecu, Str(c.apid), Str(c.ctid));
    HasOne(f, ks, |ks|);
    hide Covers, Render, Tried, HitsUpTo, NameOk, Str;
    if Hits(f.keys, ecu, c) {
      var i :| 0 <= i < |f.keys| && Covers(f.keys[i], ecu, c);
      TriedKey(f.keys[i], ecu, c);
      var j :| 0 <= j < |ks| && ks[j] == f.keys[i];
      assert HasKey(f.keys, Render(ks[j]));
    }
    if HitsUpTo(f, ks, |ks|) > 0 {
      var j :| 0 <= j < |ks| && HasKey(f.keys, Render(ks[j]));
      var i :| 0 <= i < |f.keys| && Render(f.keys[i]) == Render(ks[j]);
      RenderInjective(f.keys[i], ks[j]);
      TriedKey(f.keys[i], ecu, c);
    }
  }

  predicate AllFiles(fs: seq<Filter>) {
    forall j :: 0 <= j < |fs| ==> fs[j].file
  }

  /** A filter that names no file decides for its device, whatever was found before it, here or for other devices;
      what is found behind it is not looked at. */
  lemma {:induction false} NoFileDecides(fs: seq<Filter>, level: int, i: nat)
    requires i < |fs| && !fs[i].file && forall j :: 0 <= j < i ==> fs[j].file
    ensures LevelFrom(fs, level) == fs[i].level
  {
    if i > 0 {
      NoFileDecides(fs[1..], Max(fs[0].level, level), i - 1);
    }
  }

  lemma {:induction false} LevelFromIsMax(fs: seq<Filter>, level: int)
    requires AllFiles(fs) && level >= -1
    ensures LevelFrom(fs, level) == Max(level, MaxLevel(fs))
  {
    if fs != [] {
      LevelFromIsMax(fs[1..], Max(fs[0].level, level));
    }
  }

  /** The filter hits the context and the search reaches it. */
  predicate FoundIn(dev: Device, ecu: seq<Byte>, c: Context, f: Filter) {
    f in dev && Hits(f.keys, ecu, c) && !MissedFrom(dev, Tried(ecu, Str(c.apid), Str(c.ctid)), f, 0)
  }

  /** The filter hits the context and the search ends ahead of it. */
  predicate MissedIn(dev: Device, ecu: seq<Byte>, c: Context, f: Filter) {
    f in dev && Hits(f.keys, ecu, c) && MissedFrom(dev, Tried(ecu, Str(c.apid), Str(c.ctid)), f, 0)
  }

  function ConfigOf(dev: Device, ecu: seq<Byte>, c: Context): seq<Filter> {
    GetConfig(dev, ecu, Str(c.apid), Str(c.ctid))
  }

  lemma {:induction false} ConfigIsFound(dev: Device, ecu: seq<Byte>, c: Context, f: Filter)
    requires DeviceOk(dev)
    ensures f in ConfigOf(dev, ecu, c) <==> FoundIn(dev, ecu, c, f)
  {
    var ks := Tried(ecu, Str(c.apid), Str(c.ctid));
    assert ConfigOf(dev, ecu, c) == ConfigFrom(dev, ks, 0, 0);
    NothingCounted(dev, ks);
    hide Tried, ConfigFrom, ConfigOf, GetConfig, HitsUpTo, Str, Covers, Hits, MissedFrom;
    if f in dev {
      InDevice(dev, f);
      HitIsTried(f, ecu, c);
      FoundFromKey(dev, ks, f, 0);
    } else if f in ConfigFrom(dev, ks, 0, 0) {
      OnlyFromDevice(dev, ks, 0, 0, f);
    }
  }

  predicate DevicesOk(devs: seq<Device>) {
    forall i :: 0 <= i < |devs| ==> DeviceOk(devs[i])
  }

  /** The highest level among the filters that the searches find. */
  function FoundLevel(devs: seq<Device>, ecu: seq<Byte>, c: Context): (m: int)
    ensures m >= -1
  {
    if devs == [] then -1 else Max(MaxLevel(ConfigOf(devs[0], ecu, c)), FoundLevel(devs[1..], ecu, c))
  }

  lemma {:induction false} ConfigAllFiles(dev: Device, ecu: seq<Byte>, c: Context)
    requires DeviceOk(dev)
    ensures AllFiles(ConfigOf(dev, ecu, c))
  {
    var fs := ConfigOf(dev, ecu, c);
    hide ConfigOf;
    forall j | 0 <= j < |fs| ensures fs[j].file {
      ConfigIsFound(dev, ecu, c, fs[j]);
      InDevice(dev, fs[j]);
    }
  }

  lemma {:induction false} LevelIsFound(devs: seq<Device>, ecu: seq<Byte>, c: Context, level: int)
    requires DevicesOk(devs) && level >= -1
    ensures GetLevel(devs, ecu, Str(c.apid), Str(c.ctid), level) == Max(level, FoundLevel(devs, ecu, c))
    decreases |devs|
  {
    hide LevelFrom, DeviceOk, Str, MaxLevel, GetConfig, AllFiles;
    if devs != [] {
      var fs := ConfigOf(devs[0], ecu, c);
      ConfigAllFiles(devs[0], ecu, c);
      LevelFromIsMax(fs, level);
      assert forall i :: 0 <= i < |devs[1..]| ==> devs[1..][i] == devs[i + 1];
      LevelIsFound(devs[1..], ecu, c, LevelFrom(fs, level));
    }
  }

  lemma {:induction false} FoundBounds(devs: seq<Device>, ecu: seq<Byte>, c: Context)
    ensures forall i :: 0 <= i < |devs| ==> MaxLevel(ConfigOf(devs[i], ecu, c)) <= FoundLevel(devs, ecu, c)
    ensures FoundLevel(devs, ecu, c) == -1 || exists i :: 0 <= i < |devs| && MaxLevel(ConfigOf(devs[i], ecu, c)) == FoundLevel(devs, ecu, c)
  {
    hide MaxLevel, ConfigOf;
    if devs != [] {
      FoundBounds(devs[1..], ecu, c);
      assert forall i :: 0 <= i < |devs[1..]| ==> devs[1..][i] == devs[i + 1];
    }
  }

  lemma {:induction false} UnionBounds(devs: seq<Device>, ecu: seq<Byte>, c: Context)
    ensures forall i :: 0 <= i < |devs| ==> MaxLevel(HitFilters(devs[i], ecu, c)) <= UnionLevel(devs, ecu, c)
    ensures UnionLevel(devs, ecu, c) == -1 || exists i :: 0 <= i < |devs| && MaxLevel(HitFilters(devs[i], ecu, c)) == UnionLevel(devs, ecu, c)
  {
    hide MaxLevel, HitFilters;
    if devs != [] {
      UnionBounds(devs[1..], ecu, c);
      assert forall i :: 0 <= i < |devs[1..]| ==> devs[1..][i] == devs[i + 1];
    }
  }

  /** Some search finds a filter with at least this level. */
  ghost predicate FoundAtLeast(devs: seq<Device>, ecu: seq<Byte>, c: Context, level: int) {
    exists j, g :: 0 <= j < |devs| && FoundIn(devs[j], ecu, c, g) && g.level >= level
  }

  /** Whatever is missed is outweighed by something that is found. */
  ghost predicate Outweighed(devs: seq<Device>, ecu: seq<Byte>, c: Context) {
    forall i, f :: 0 <= i < |devs| && MissedIn(devs[i], ecu, c, f) ==> FoundAtLeast(devs, ecu, c, f.level)
  }

  /** Some search finds a filter with at least this level, if the highest level found is as high. */
  lemma {:induction false} FoundAtLeastIff(devs: seq<Device>, ecu: seq<Byte>, c: Context, level: int)
    requires DevicesOk(devs) && level >= 0
    ensures FoundAtLeast(devs, ecu, c, level) <==> FoundLevel(devs, ecu, c) >= level
  {
    FoundBounds(devs, ecu, c);
    hide FoundLevel, ConfigOf, MaxLevel, FoundIn;
    if FoundAtLeast(devs, ecu, c, level) {
      var j, g :| 0 <= j < |devs| && FoundIn(devs[j], ecu, c, g) && g.level >= level;
      ConfigIsFound(devs[j], ecu, c, g);
      MaxLevelBounds(ConfigOf(devs[j], ecu, c));
    }
    if FoundLevel(devs, ecu, c) >= level {
      var j :| 0 <= j < |devs| && MaxLevel(ConfigOf(devs[j], ecu, c)) == FoundLevel(devs, ecu, c);
      MaxLevelBounds(ConfigOf(devs[j], ecu, c));
      var g :| g in ConfigOf(devs[j], ecu, c) && g.level == MaxLevel(ConfigOf(devs[j], ecu, c));
      ConfigIsFound(devs[j], ecu, c, g);
    }
  }

  /** A filter that hits adds at most the level of the simple definition. */
  lemma {:induction false} HitAtMost(devs: seq<Device>, ecu: seq<Byte>, c: Context, i: nat, f: Filter)
    requires i < |devs| && f in devs[i] && Hits(f.keys, ecu, c)
    ensures f.level <= UnionLevel(devs, ecu, c)
  {
    UnionBounds(devs, ecu, c);
    MaxLevelBounds(HitFilters(devs[i], ecu, c));
    hide UnionLevel, MaxLevel, Hits;
  }

  lemma {:induction false} FoundAtMost(devs: seq<Device>, ecu: seq<Byte>, c: Context)
    requires DevicesOk(devs)
    ensures FoundLevel(devs, ecu, c) <= UnionLevel(devs, ecu, c)
  {
    var level := FoundLevel(devs, ecu, c);
    if level >= 0 {
      FoundAtLeastIff(devs, ecu, c, level);
      hide FoundLevel, UnionLevel, Hits, MissedFrom, Tried;
      var j, g :| 0 <= j < |devs| && FoundIn(devs[j], ecu, c, g) && g.level >= level;
      HitAtMost(devs, ecu, c, j, g);
    }
  }

  /** A filter that hits and has the level of the simple definition. */
  lemma {:induction false} HighestHit(devs: seq<Device>, ecu: seq<Byte>, c: Context) returns (i: nat, f: Filter)
    requires UnionLevel(devs, ecu, c) != -1
    ensures i < |devs| && f in devs[i] && Hits(f.keys, ecu, c) && f.level == UnionLevel(devs, ecu, c)
  {
    UnionBounds(devs, ecu, c);
    hide UnionLevel, MaxLevel, Hits;
    i :| 0 <= i < |devs| && MaxLevel(HitFilters(devs[i], ecu, c)) == UnionLevel(devs, ecu, c);
    MaxLevelBounds(HitFilters(devs[i], ecu, c));
    f :| f in HitFilters(devs[i], ecu, c) && f.level == MaxLevel(HitFilters(devs[i], ecu, c));
  }

  /** A new context gets the level that all devices together ask for, if and only if every filter that hits it
      and is missed by the search is outweighed by one that is found. */
  lemma {:induction false} NewContextLevel(devs: seq<Device>, ecu: seq<Byte>, c: Context)
    requires DevicesOk(devs)
    ensures GetLevel(devs, ecu, Str(c.apid), Str(c.ctid), -1) == UnionLevel(devs, ecu, c) <==> Outweighed(devs, ecu, c)
  {
    LevelIsFound(devs, ecu, c, -1);
    FoundAtMost(devs, ecu, c);
    var level := UnionLevel(devs, ecu, c);
    hide GetLevel, UnionLevel, FoundLevel, FoundAtLeast, Hits, MissedFrom, Tried, Str;
    if FoundLevel(devs, ecu, c) == level {
      forall i, f | 0 <= i < |devs| && MissedIn(devs[i], ecu, c, f) ensures FoundAtLeast(devs, ecu, c, f.level) {
        HitAtMost(devs, ecu, c, i, f);
        InDevice(devs[i], f);
        FoundAtLeastIff(devs, ecu, c, f.level);
      }
    } else {
      var i, f := HighestHit(devs, ecu, c);
      FoundAtLeastIff(devs, ecu, c, level);
      assert !FoundAtLeast(devs, ecu, c, f.level);
      if FoundIn(devs[i], ecu, c, f) {
        FoundWitness(devs, ecu, c, i, f);
      }
      assert MissedIn(devs[i], ecu, c, f);
    }
  }

  lemma {:induction false} FoundWitness(devs: seq<Device>, ecu: seq<Byte>, c: Context, i: nat, f: Filter)
    requires i < |devs| && FoundIn(devs[i], ecu, c, f)
    ensures FoundAtLeast(devs, ecu, c, f.level)
  {
  }

  // ---- an input on which the search is cut short

  const A := Id4(65, 0, 0, 0)
  const C := Id4(67, 0, 0, 0)

  /** Filters for the applications A and any other with context C, and for all contexts of ECU E. */
  function MixedFilters(): Device {
    [Filter([Key([], [65], [67]), Key([], [], [67])], 3, true), Filter([Key([69], [], [])], 6, true)]
  }

  lemma {:induction false} MixedKeys()
    ensures var ks := Tried([69], [65], [67]); var dev := MixedFilters();
      && (forall i :: 0 <= i < 7 ==> (HasKey(dev[0].keys, Render(ks[i])) <==> i == 1 || i == 2))
      && (forall i :: 0 <= i < 7 ==> (HasKey(dev[1].keys, Render(ks[i])) <==> i == 6))
  {
    var ks, dev := Tried([69], [65], [67]), MixedFilters();
    forall i | 0 <= i < 7
      ensures HasKey(dev[0].keys, Render(ks[i])) <==> i == 1 || i == 2
      ensures HasKey(dev[1].keys, Render(ks[i])) <==> i == 6
    {
      MixedKey(ks[i], dev[0].keys[0]);
      MixedKey(ks[i], dev[0].keys[1]);
      MixedKey(ks[i], dev[1].keys[0]);
      hide Render;
      assert Render(dev[0].keys[1]) == Render(ks[1]) && Render(dev[0].keys[0]) == Render(ks[2]) && Render(dev[1].keys[0]) == Render(ks[6]);
    }
  }

  lemma {:induction false} MixedKey(k: Key, l: Key)
    requires NamesOk(k) && NamesOk(l)
    ensures Render(k) == Render(l) <==> k == l
  {
    hide *;
    if Render(k) == Render(l) {
      RenderInjective(k, l);
    }
  }

  lemma {:induction false} FirstThree(f: Filter, ks: seq<Key>)
    requires |ks| == 7
    ensures HitsUpTo(f, ks, 3) == (if HasKey(f.keys, Render(ks[0])) then 1 else 0)
      + (if HasKey(f.keys, Render(ks[1])) then 1 else 0) + (if HasKey(f.keys, Render(ks[2])) then 1 else 0)
    ensures HasKey(f.keys, Render(ks[6])) ==> HitsUpTo(f, ks, 7) > 0
  {
    hide HasKey, Render;
    assert HitsUpTo(f, ks, 0) == 0;
    assert HitsUpTo(f, ks, 1) == if HasKey(f.keys, Render(ks[0])) then 1 else 0;
    assert HitsUpTo(f, ks, 2) == HitsUpTo(f, ks, 1) + if HasKey(f.keys, Render(ks[1])) then 1 else 0;
  }

  lemma {:induction false} MixedCounts(dev: Device, ks: seq<Key>)
    requires dev == MixedFilters() && ks == Tried([69], [65], [67])
    ensures StopsAt(dev, ks, dev[1], 2) && HitsUpTo(dev[1], ks, 7) > 0
  {
    MixedKeys();
    hide HasKey, Render;
    FirstThree(dev[0], ks);
    FirstThree(dev[1], ks);
    assert HasKey(dev[1].keys, Render(ks[6]));
    assert Total(dev[1..][1..], ks, 3) == 0;
    assert Total(dev[1..], ks, 3) == 0;
  }

  lemma {:induction false} MixedCutShort(dev: Device, ks: seq<Key>)
    requires dev == MixedFilters() && ks == Tried([69], [65], [67])
    ensures CutShort(dev, ks)
  {
    MixedCounts(dev, ks);
    hide StopsAt, HitsUpTo, Tried;
    assert MissedFrom(dev, ks, dev[1], 0);
  }

  lemma {:induction false} FindInTwo(f: Filter, g: Filter, s: seq<Byte>)
    ensures ListFind([f, g], s) == (if HasKey(f.keys, s) then [f] else []) + (if HasKey(g.keys, s) then [g] else [])
  {
    hide HasKey;
    assert [f, g][1..] == [g];
    assert ListFind([g][1..], s) == [];
  }

  lemma {:induction false} MixedFound(dev: Device, ks: seq<Key>)
    requires dev == MixedFilters() && ks == Tried([69], [65], [67])
    ensures ConfigFrom(dev, ks, 0, 0) == [dev[0], dev[0]]
  {
    MixedKeys();
    hide HasKey, Render;
    var f, g := dev[0], dev[1];
    FindInTwo(f, g, Render(ks[0]));
    FindInTwo(f, g, Render(ks[1]));
    FindInTwo(f, g, Render(ks[2]));
    hide ListFind;
    assert ConfigFrom(dev, ks, 1, 2) == [f];
    assert ConfigFrom(dev, ks, 0, 1) == [f] + [f];
    assert ConfigFrom(dev, ks, 0, 0) == [] + ([f] + [f]);
  }

  lemma {:induction false} MixedHits(dev: Device, c: Context)
    requires dev == MixedFilters() && Str(c.apid) == [65] && Str(c.ctid) == [67]
    ensures HitFilters(dev, [69], c) == dev && MaxLevel(dev) == 6
  {
    hide Str;
    assert Covers(dev[0].keys[0], [69], c) && Covers(dev[1].keys[0], [69], c);
    hide Covers;
    assert Hits(dev[0].keys, [69], c) && Hits(dev[1].keys, [69], c);
    hide Hits;
    assert dev[1..] == [dev[1]];
    assert HitFilters(dev[1..], [69], c) == [dev[1]] + [];
    assert MaxLevel(dev[1..]) == 6;
  }

  lemma {:induction false} TwiceLevel(f: Filter)
    requires f.file && f.level == 3
    ensures LevelFrom([f, f], -1) == 3
  {
    assert [f, f][1..] == [f];
    assert LevelFrom([f][1..], 3) == 3;
  }

  /** A filter hit by two of the keys ends the search before the filter of the ECU is found: a context that
      registers after the device was connected gets a lower level than one that was there before. */
  lemma {:induction false} MixedFiltersMiss(c: Context)
    requires c.apid == A && c.ctid == C
    ensures CutShort(MixedFilters(), Tried([69], Str(c.apid), Str(c.ctid)))
    ensures UnionLevel([MixedFilters()], [69], c) == 6
    ensures GetLevel([MixedFilters()], [69], Str(c.apid), Str(c.ctid), -1) == 3
  {
    var dev, ks := MixedFilters(), Tried([69], [65], [67]);
    assert Str(c.apid) == [65] && Str(c.ctid) == [67];
    MixedCutShort(dev, ks);
    MixedFound(dev, ks);
    MixedHits(dev, c);
    hide StopsAt, HitsUpTo, ConfigFrom, HitFilters, MaxLevel, Str, Tried, CutShort;
    TwiceLevel(dev[0]);
    hide LevelFrom, MixedFilters;
    var devs: seq<Device> := [dev];
    assert |devs[1..]| == 0;
  }
}

/** Keys mean what they say, and raising key by key is taking the highest level. */
module LogstorageLevels {
  import opened Ids
  import opened Registry
  import opened LevelScan
  import opened LogstorageKeys
  import opened Logstorage

  predicate KeysOk(ks: seq<Key>) {
    forall j :: 0 <= j < |ks| ==> KeyOk(ks[j])
  }

  predicate FilterOk(f: Filter) {
    KeysOk(f.keys) && 1 <= f.level <= LOG_VERBOSE && f.file
  }

  predicate DeviceOk(dev: Device) {
    forall i :: 0 <= i < |dev| ==> FilterOk(dev[i])
  }

  // ---- one key

  lemma {:induction false} StrOfSetId(s: seq<Byte>, i: Id)
    requires NameOk(s) && s != []
    ensures SetId(s) == i <==> Str(i) == s
    ensures SetId(s) != NO_ID
  {
    assert s[0] != 0;
    assert |s| > 1 ==> s[1] != 0;
    assert |s| > 2 ==> s[2] != 0;
    assert |s| > 3 ==> s[3] != 0;
  }

  lemma {:induction false} NotWild(s: seq<Byte>)
    requires s != WILDCARD
    ensures Wild(s) == WILDCARD <==> s == []
    ensures s != [] ==> Wild(s) == s
  {
  }

  /** The single context of a pair is the only one that matches it. */
  lemma {:induction false} PairMeans(ctxs: seq<Context>, apid: Id, ctid: Id, level: int, k: nat)
    requires SortedCtxs(ctxs) && apid != NO_ID && ctid != NO_ID && k < |ctxs|
    ensures TouchPair(ctxs, apid, ctid, level)[k] ==
      if ctxs[k].apid == apid && ctxs[k].ctid == ctid then Touch(ctxs[k], level) else ctxs[k]
  {
    var i := FindCtx(ctxs, apid, ctid);
    assert i < k ==> CtxKey(ctxs[i]) < CtxKey(ctxs[k]);
  }

  /** Updating a key touches exactly the contexts that the key covers. */
  lemma {:induction false} UpdateKeyMeans(ctxs: seq<Context>, ecu: seq<Byte>, key: Key, level: int, k: nat)
    requires SortedCtxs(ctxs) && KeyOk(key) && k < |ctxs|
    ensures UpdateKey(ctxs, ecu, Render(key), level)[k] == if Covers(key, ecu, ctxs[k]) then Touch(ctxs[k], level) else ctxs[k]
  {
    SplitRender(key);
    NotWild(key.apid);
    NotWild(key.ctid);
    if key.apid != [] && key.ctid != [] {
      StrOfSetId(key.apid, ctxs[k].apid);
      StrOfSetId(key.ctid, ctxs[k].ctid);
      PairMeans(ctxs, SetId(key.apid), SetId(key.ctid), level, k);
    }
    hide SortedCtxs, Render, SplitKey, SetId, TouchPair, FindCtx, Wild, NameOk, Str, Touch;
  }

  lemma {:induction false} UpdateKeySameIds(ctxs: seq<Context>, ecu: seq<Byte>, key: Key, level: int)
    requires SortedCtxs(ctxs) && KeyOk(key)
    ensures var r := UpdateKey(ctxs, ecu, Render(key), level);
      SortedCtxs(r) && (forall k :: 0 <= k < |r| ==> r[k].apid == ctxs[k].apid && r[k].ctid == ctxs[k].ctid && r[k].predefined == ctxs[k].predefined)
  {
    hide SortedCtxs, Render, KeyOk, UpdateKey;
    var r := UpdateKey(ctxs, ecu, Render(key), level);
    forall k | 0 <= k < |r| ensures r[k].apid == ctxs[k].apid && r[k].ctid == ctxs[k].ctid && r[k].predefined == ctxs[k].predefined {
      UpdateKeyMeans(ctxs, ecu, key, level, k);
    }
    SameIdsSorted(ctxs, r);
  }

  lemma {:induction false} CoversById(key: Key, ecu: seq<Byte>, c: Context, d: Context)
    requires c.apid == d.apid && c.ctid == d.ctid
    ensures Covers(key, ecu, c) == Covers(key, ecu, d)
  {
  }

  // ---- levels

  lemma {:induction false} MaxLevelBounds(fs: seq<Filter>)
    ensures forall f :: f in fs ==> f.level <= MaxLevel(fs)
    ensures MaxLevel(fs) == -1 || exists f :: f in fs && f.level == MaxLevel(fs)
  {
    if fs != [] {
      MaxLevelBounds(fs[1..]);
      assert fs == [fs[0]] + fs[1..];
      assert fs[0] in fs;
      if MaxLevel(fs[1..]) != -1 {
        var f :| f in fs[1..] && f.level == MaxLevel(fs[1..]);
        assert f in fs;
      }
    }
  }

  lemma {:induction false} MaxLevelSame(a: seq<Filter>, b: seq<Filter>)
    requires forall f :: f in a <==> f in b
    ensures MaxLevel(a) == MaxLevel(b)
  {
    MaxLevelBounds(a);
    MaxLevelBounds(b);
    hide MaxLevel;
    if MaxLevel(a) != -1 {
      var f :| f in a && f.level == MaxLevel(a);
      assert f in b;
    }
    if MaxLevel(b) != -1 {
      var f :| f in b && f.level == MaxLevel(b);
      assert f in a;
    }
  }

  lemma {:induction false} MaxLevelSplit(a: seq<Filter>, b: seq<Filter>)
    ensures MaxLevel(a + b) == Max(MaxLevel(a), MaxLevel(b))
  {
    if a == [] {
      assert a + b == b;
    } else {
      MaxLevelSplit(a[1..], b);
      assert (a + b)[1..] == a[1..] + b;
    }
  }

  lemma {:induction false} InDevice(dev: Device, f: Filter)
    requires DeviceOk(dev) && f in dev
    ensures FilterOk(f)
  {
  }

  /** The level of a key of the device is the highest among the filters with that key. */
  lemma {:induction false} LevelByKeyIsMax(dev: Device, s: seq<Byte>)
    requires DeviceOk(dev)
    ensures LevelByKey(dev, s) == MaxLevel(ListFind(dev, s))
    ensures ListFind(dev, s) != [] ==> LevelByKey(dev, s) > 0
  {
    var found := ListFind(dev, s);
    if found != [] {
      assert found[0] in found;
      InDevice(dev, found[0]);
      if |found| == 1 {
        assert MaxLevel(found[1..]) == -1;
      }
    }
  }

  /** The filters found through those of the keys that cover a context. */
  function Found(dev: Device, ecu: seq<Byte>, ks: seq<Key>, c: Context): seq<Filter> {
    if ks == [] then []
    else (if Covers(ks[0], ecu, c) then ListFind(dev, Render(ks[0])) else []) + Found(dev, ecu, ks[1..], c)
  }

  lemma {:induction false} FoundFrom(dev: Device, ecu: seq<Byte>, ks: seq<Key>, c: Context, f: Filter)
    ensures f in Found(dev, ecu, ks, c) <==>
      exists j :: 0 <= j < |ks| && Covers(ks[j], ecu, c) && f in ListFind(dev, Render(ks[j]))
  {
    hide Covers, ListFind, Render;
    if ks != [] {
      FoundFrom(dev, ecu, ks[1..], c, f);
      if f in Found(dev, ecu, ks[1..], c) {
        var j :| 0 <= j < |ks[1..]| && Covers(ks[1..][j], ecu, c) && f in ListFind(dev, Render(ks[1..][j]));
        assert ks[j + 1] == ks[1..][j];
      }
      if exists j :: 0 <= j < |ks| && Covers(ks[j], ecu, c) && f in ListFind(dev, Render(ks[j])) {
        var j :| 0 <= j < |ks| && Covers(ks[j], ecu, c) && f in ListFind(dev, Render(ks[j]));
        assert j > 0 ==> ks[1..][j - 1] == ks[j];
      }
    }
  }

  lemma {:induction false} KeyInAll(dev: Device, f: Filter, j: nat)
    requires f in dev && j < |f.keys|
    ensures f.keys[j] in AllKeys(dev)
  {
    if dev[0] != f {
      assert f in dev[1..];
      KeyInAll(dev[1..], f, j);
    }
  }

  lemma {:induction false} AllKeysOk(dev: Device)
    requires DeviceOk(dev)
    ensures KeysOk(AllKeys(dev))
  {
    if dev != [] {
      assert FilterOk(dev[0]);
      AllKeysOk(dev[1..]);
    }
  }

  lemma {:induction false} KeyFrom(dev: Device, i: nat)
    requires i < |AllKeys(dev)|
    ensures exists f :: f in dev && AllKeys(dev)[i] in f.keys
  {
    if i < |dev[0].keys| {
      assert AllKeys(dev)[i] == dev[0].keys[i] && dev[0] in dev;
    } else {
      KeyFrom(dev[1..], i - |dev[0].keys|);
      assert AllKeys(dev)[i] == AllKeys(dev[1..])[i - |dev[0].keys|];
      var f :| f in dev[1..] && AllKeys(dev)[i] in f.keys;
      assert f in dev;
    }
  }

  /** A filter that has a rendered key of the device has the key. */
  lemma {:induction false} HasKeyCovers(f: Filter, key: Key, ecu: seq<Byte>, c: Context)
    requires KeysOk(f.keys) && KeyOk(key) && HasKey(f.keys, Render(key)) && Covers(key, ecu, c)
    ensures Hits(f.keys, ecu, c)
  {
    hide Covers, Render, NamesOk;
    var i :| 0 <= i < |f.keys| && Render(f.keys[i]) == Render(key);
    RenderInjective(f.keys[i], key);
  }

  lemma {:induction false} HitIsFound(dev: Device, ecu: seq<Byte>, c: Context, f: Filter)
    requires f in dev && Hits(f.keys, ecu, c)
    ensures f in Found(dev, ecu, AllKeys(dev), c)
  {
    var ks := AllKeys(dev);
    FoundFrom(dev, ecu, ks, c, f);
    hide Covers, Found, AllKeys, Render;
    var i :| 0 <= i < |f.keys| && Covers(f.keys[i], ecu, c);
    KeyInAll(dev, f, i);
    var j :| 0 <= j < |ks| && ks[j] == f.keys[i];
    assert HasKey(f.keys, Render(ks[j]));
  }

  /** Through all keys of the device exactly the filters that hit are found. */
  lemma {:induction false} FoundIsHit(dev: Device, ecu: seq<Byte>, c: Context, f: Filter)
    requires DeviceOk(dev)
    ensures f in Found(dev, ecu, AllKeys(dev), c) <==> f in HitFilters(dev, ecu, c)
  {
    var ks := AllKeys(dev);
    if f in Found(dev, ecu, ks, c) {
      FoundFrom(dev, ecu, ks, c, f);
      AllKeysOk(dev);
      hide Covers, Found, HitFilters, AllKeys, Render, Hits;
      var j :| 0 <= j < |ks| && Covers(ks[j], ecu, c) && f in ListFind(dev, Render(ks[j]));
      InDevice(dev, f);
      HasKeyCovers(f, ks[j], ecu, c);
    } else if f in dev && Hits(f.keys, ecu, c) {
      HitIsFound(dev, ecu, c, f);
    }
  }

  // ---- raising and resetting

  lemma {:induction false} ListFindKey(dev: Device, key: Key)
    requires key in AllKeys(dev)
    ensures ListFind(dev, Render(key)) != []
  {
    var i :| 0 <= i < |AllKeys(dev)| && AllKeys(dev)[i] == key;
    KeyFrom(dev, i);
    var f :| f in dev && key in f.keys;
    var j :| 0 <= j < |f.keys| && f.keys[j] == key;
    assert HasKey(f.keys, Render(key));
    assert f in ListFind(dev, Render(key));
  }

  /** What raising key by key does to the context at index k. */
  lemma {:induction false} RaiseKeysAt(ctxs: seq<Context>, ecu: seq<Byte>, dev: Device, ks: seq<Key>, k: nat)
    requires SortedCtxs(ctxs) && DeviceOk(dev) && KeysOk(ks) && k < |ctxs| && ctxs[k].storage >= -1
    requires forall j :: 0 <= j < |ks| ==> ks[j] in AllKeys(dev)
    ensures RaiseKeys(ctxs, ecu, dev, ks)[k] ==
      ctxs[k].(storage := Max(ctxs[k].storage, MaxLevel(Found(dev, ecu, ks, ctxs[k]))))
    decreases |ks|
  {
    hide SortedCtxs, DeviceOk, AllKeys, UpdateKey, ListFind, LevelByKey, Render, Covers, KeyOk;
    if ks != [] {
      var key, c := ks[0], ctxs[k];
      var level := LevelByKey(dev, Render(key));
      ListFindKey(dev, key);
      LevelByKeyIsMax(dev, Render(key));
      var next := UpdateKey(ctxs, ecu, Render(key), level);
      UpdateKeyMeans(ctxs, ecu, key, level, k);
      UpdateKeySameIds(ctxs, ecu, key, level);
      RaiseKeysAt(next, ecu, dev, ks[1..], k);
      FoundById(dev, ecu, ks[1..], c, next[k]);
      MaxLevelSplit(if Covers(key, ecu, c) then ListFind(dev, Render(key)) else [], Found(dev, ecu, ks[1..], c));
      hide MaxLevel;
    }
  }

  lemma {:induction false} FoundById(dev: Device, ecu: seq<Byte>, ks: seq<Key>, c: Context, d: Context)
    requires c.apid == d.apid && c.ctid == d.ctid
    ensures Found(dev, ecu, ks, c) == Found(dev, ecu, ks, d)
  {
    if ks != [] {
      CoversById(ks[0], ecu, c, d);
      FoundById(dev, ecu, ks[1..], c, d);
    }
  }

  lemma {:induction false} RaiseKeysSameIds(ctxs: seq<Context>, ecu: seq<Byte>, dev: Device, ks: seq<Key>)
    requires SortedCtxs(ctxs) && KeysOk(ks)
    ensures SortedCtxs(RaiseKeys(ctxs, ecu, dev, ks))
    decreases |ks|
  {
    hide SortedCtxs, UpdateKey, LevelByKey, Render, KeyOk;
    if ks != [] {
      var level := LevelByKey(dev, Render(ks[0]));
      UpdateKeySameIds(ctxs, ecu, ks[0], level);
      RaiseKeysSameIds(UpdateKey(ctxs, ecu, Render(ks[0]), level), ecu, dev, ks[1..]);
    }
  }

  /** Connecting a device raises every context to the highest level of the filters that hit it. */
  lemma {:induction false} UpdateDeviceAt(ctxs: seq<Context>, ecu: seq<Byte>, dev: Device, k: nat)
    requires SortedCtxs(ctxs) && DeviceOk(dev) && k < |ctxs| && ctxs[k].storage >= -1
    ensures SortedCtxs(UpdateDevice(ctxs, ecu, dev))
    ensures UpdateDevice(ctxs, ecu, dev)[k] ==
      ctxs[k].(storage := Max(ctxs[k].storage, MaxLevel(HitFilters(dev, ecu, ctxs[k]))))
  {
    var ks, c := AllKeys(dev), ctxs[k];
    AllKeysOk(dev);
    RaiseKeysSameIds(ctxs, ecu, dev, ks);
    RaiseKeysAt(ctxs, ecu, dev, ks, k);
    forall f ensures f in Found(dev, ecu, ks, c) <==> f in HitFilters(dev, ecu, c) {
      FoundIsHit(dev, ecu, c, f);
    }
    hide *;
    MaxLevelSame(Found(dev, ecu, ks, c), HitFilters(dev, ecu, c));
    UpdateIs(ctxs, ecu, dev);
  }

  lemma {:induction false} UpdateIs(ctxs: seq<Context>, ecu: seq<Byte>, dev: Device)
    ensures UpdateDevice(ctxs, ecu, dev) == RaiseKeys(ctxs, ecu, dev, AllKeys(dev))
  {
  }

  /** What resetting does to the context at index k. */
  lemma {:induction false} ResetKeysAt(ctxs: seq<Context>, ecu: seq<Byte>, ks: seq<Key>, k: nat)
    requires SortedCtxs(ctxs) && KeysOk(ks) && k < |ctxs|
    ensures SortedCtxs(ResetKeys(ctxs, ecu, ks))
    ensures ResetKeys(ctxs, ecu, ks)[k] == if Hits(ks, ecu, ctxs[k]) then ctxs[k].(storage := LOG_DEFAULT) else ctxs[k]
    decreases |ks|
  {
    hide SortedCtxs, UpdateKey, Render, KeyOk, Covers;
    if ks != [] {
      var next := UpdateKey(ctxs, ecu, Render(ks[0]), -1);
      UpdateKeyMeans(ctxs, ecu, ks[0], -1, k);
      UpdateKeySameIds(ctxs, ecu, ks[0], -1);
      ResetKeysAt(next, ecu, ks[1..], k);
      HitsStep(ks, ecu, ctxs[k], next[k]);
      hide Hits;
    }
  }

  lemma {:induction false} HitsStep(ks: seq<Key>, ecu: seq<Byte>, c: Context, d: Context)
    requires ks != [] && c.apid == d.apid && c.ctid == d.ctid
    ensures Hits(ks, ecu, c) <==> Covers(ks[0], ecu, c) || Hits(ks[1..], ecu, d)
  {
    forall j | 0 <= j < |ks| ensures Covers(ks[j], ecu, c) == Covers(ks[j], ecu, d) {
      CoversById(ks[j], ecu, c, d);
    }
    hide Covers;
    if Hits(ks, ecu, c) {
      var j :| 0 <= j < |ks| && Covers(ks[j], ecu, c);
      assert j > 0 ==> ks[1..][j - 1] == ks[j];
    }
    if Hits(ks[1..], ecu, d) {
      var j :| 0 <= j < |ks[1..]| && Covers(ks[1..][j], ecu, d);
      assert ks[j + 1] == ks[1..][j];
    }
  }

  /** A context is covered by some key of the device exactly if some filter of the device hits it. */
  lemma {:induction false} AllKeysHit(dev: Device, ecu: seq<Byte>, c: Context)
    requires DeviceOk(dev)
    ensures Hits(AllKeys(dev), ecu, c) <==> HitFilters(dev, ecu, c) != []
    ensures HitFilters(dev, ecu, c) == [] ==> MaxLevel(HitFilters(dev, ecu, c)) == -1
  {
    var ks := AllKeys(dev);
    hide Covers, AllKeys;
    if Hits(ks, ecu, c) {
      var j :| 0 <= j < |ks| && Covers(ks[j], ecu, c);
      KeyFrom(dev, j);
      var f :| f in dev && ks[j] in f.keys;
      assert Hits(f.keys, ecu, c);
      assert f in HitFilters(dev, ecu, c);
    }
    if HitFilters(dev, ecu, c) != [] {
      var f := HitFilters(dev, ecu, c)[0];
      assert f in HitFilters(dev, ecu, c);
      var i :| 0 <= i < |f.keys| && Covers(f.keys[i], ecu, c);
      KeyInAll(dev, f, i);
    }
  }
}

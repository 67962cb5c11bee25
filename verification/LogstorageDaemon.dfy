/** The loops over filters, keys and contexts that keep the cached levels. */
module LogstorageDaemon {
  import opened Ids
  import opened Registry
  import opened RegistryTable
  import opened LevelScan
  import opened LogstorageKeys
  import opened Logstorage
  import opened LogstorageLevels
  import opened LogstorageSearch

  // ---- looking up

  method KeyListed(keys: seq<Key>, s: seq<Byte>) returns (b: bool)
    ensures b <==> HasKey(keys, s)
  {
    hide Render;
    b := false;
    var i := 0;
    while i < |keys|
      invariant 0 <= i <= |keys| && !b
      invariant forall j :: 0 <= j < i ==> Render(keys[j]) != s
    {
      if Render(keys[i]) == s {
        return true;
      }
      i := i + 1;
    }
  }

  method FindInList(list: Device, s: seq<Byte>) returns (found: seq<Filter>)
    ensures found == ListFind(list, s)
  {
    hide HasKey;
    found := [];
    var i := 0;
    while i < |list|
      invariant 0 <= i <= |list|
      invariant ListFind(list, s) == found + ListFind(list[i..], s)
    {
      var b := KeyListed(list[i].keys, s);
      assert list[i..][1..] == list[i + 1..];
      if b {
        found := found + [list[i]];
      }
      i := i + 1;
    }
  }

  method GetLevelByKey(dev: Device, s: seq<Byte>) returns (level: int)
    ensures level == LevelByKey(dev, s)
  {
    hide ListFind;
    var found := FindInList(dev, s);
    level := 0;
    if |found| == 0 {
      return -1;
    } else if |found| == 1 {
      level := found[0].level;
    } else {
      var i := 0;
      while i < |found|
        invariant 0 <= i <= |found| && level >= 0
        invariant Max(0, MaxLevel(found)) == Max(level, MaxLevel(found[i..]))
      {
        assert found[i..][1..] == found[i + 1..];
        if found[i].level > level {
          level := found[i].level;
        }
        i := i + 1;
      }
    }
  }

  // ---- one key

  datatype Compare = CompareApid | CompareCtid | CompareAll

  /** Contexts whose application or own identifier is the given one, or all of them. */
  function TouchSome(ctxs: seq<Context>, cmp: Compare, id: seq<Byte>, level: int): (r: seq<Context>)
    ensures |r| == |ctxs|
  {
    match cmp
    case CompareApid => TouchApid(ctxs, id, level)
    case CompareCtid => TouchCtid(ctxs, id, level)
    case CompareAll => TouchAll(ctxs, level)
  }

  method TouchContext(list: UserList, i: nat, level: int)
    requires i < |list.contexts|
    modifies list`contexts
    ensures list.contexts == old(list.contexts)[i := Touch(old(list.contexts)[i], level)]
  {
    var c := list.contexts[i];
    if level > 0 {
      list.contexts := list.contexts[i := c.(storage := if level > c.storage then level else c.storage)];
    } else {
      list.contexts := list.contexts[i := c.(storage := LOG_DEFAULT)];
    }
  }

  method UpdateAllContexts(list: UserList, id: seq<Byte>, level: int, cmp: Compare)
    requires cmp == CompareAll ==> id == WILDCARD
    modifies list`contexts
    ensures list.contexts == TouchSome(old(list.contexts), cmp, id, level)
  {
    hide Str, Touch;
    var i := 0;
    while i < |list.contexts|
      invariant 0 <= i <= |list.contexts| == |old(list.contexts)|
      invariant forall j :: 0 <= j < i ==> list.contexts[j] == TouchSome(old(list.contexts), cmp, id, level)[j]
      invariant forall j :: i <= j < |list.contexts| ==> list.contexts[j] == old(list.contexts)[j]
    {
      var c := list.contexts[i];
      var other := if cmp == CompareApid then Str(c.apid) else if cmp == CompareCtid then Str(c.ctid) else WILDCARD;
      if id == other {
        TouchContext(list, i, level);
      }
      i := i + 1;
    }
  }

  method UpdateContext(list: UserList, apid: Id, ctid: Id, level: int)
    requires SortedCtxs(list.contexts)
    modifies list`contexts
    ensures list.contexts == TouchPair(old(list.contexts), apid, ctid, level)
  {
    hide Touch;
    var k := list.FindContext(apid, ctid);
    if k >= 0 {
      TouchContext(list, k, level);
    }
  }

  method UpdateContextLevel(list: UserList, ecu: seq<Byte>, key: seq<Byte>, level: int)
    requires SortedCtxs(list.contexts)
    modifies list`contexts
    ensures list.contexts == UpdateKey(old(list.contexts), ecu, key, level)
  {
    hide SplitKey, SetId, TouchPair, SortedCtxs;
    match SplitKey(key)
    case Bad =>
    case Parts(e, apid, ctid) =>
      if e != [] && e != ecu {
        // the contexts of another ECU are not kept in this list
      } else if ctid == WILDCARD && apid == WILDCARD {
        UpdateAllContexts(list, apid, level, CompareAll);
      } else if ctid == WILDCARD {
        UpdateAllContexts(list, apid, level, CompareApid);
      } else if apid == WILDCARD {
        UpdateAllContexts(list, ctid, level, CompareCtid);
      } else {
        UpdateContext(list, SetId(apid), SetId(ctid), level);
      }
  }

  // ---- connecting and disconnecting

  lemma {:induction false} RaiseNext(ctxs: seq<Context>, ecu: seq<Byte>, dev: Device, ks: seq<Key>)
    requires ks != []
    ensures var level := LevelByKey(dev, Render(ks[0]));
      RaiseKeys(ctxs, ecu, dev, ks) ==
        if level < 0 then ctxs else RaiseKeys(UpdateKey(ctxs, ecu, Render(ks[0]), level), ecu, dev, ks[1..])
  {
    hide LevelByKey, UpdateKey, Render;
  }

  lemma {:induction false} KeysFrom(dev: Device, n: nat, i: nat)
    requires n < |dev| && i < |dev[n].keys|
    ensures var ks := dev[n].keys[i..] + AllKeys(dev[n + 1..]);
      ks[0] == dev[n].keys[i] && ks[1..] == dev[n].keys[i + 1..] + AllKeys(dev[n + 1..])
  {
  }

  lemma {:induction false} NextFilter(dev: Device, n: nat)
    requires n < |dev|
    ensures AllKeys(dev[n..]) == dev[n].keys[0..] + AllKeys(dev[n + 1..])
    ensures dev[n].keys[|dev[n].keys|..] + AllKeys(dev[n + 1..]) == AllKeys(dev[n + 1..])
  {
    assert dev[n..][1..] == dev[n + 1..];
    assert dev[n].keys[0..] == dev[n].keys;
  }

  /** All keys of all filters of a device that was connected. */
  method UpdateApplicationLevel(list: UserList, ecu: seq<Byte>, dev: Device)
    requires SortedCtxs(list.contexts) && DeviceOk(dev)
    modifies list`contexts
    ensures list.contexts == UpdateDevice(old(list.contexts), ecu, dev)
    ensures SortedCtxs(list.contexts)
  {
    hide RaiseKeys, AllKeys, UpdateKey, LevelByKey, Render, SortedCtxs, KeyOk;
    ghost var all := UpdateDevice(list.contexts, ecu, dev);
    assert dev[0..] == dev;
    var n := 0;
    while n < |dev|
      invariant 0 <= n <= |dev| && SortedCtxs(list.contexts)
      invariant RaiseKeys(list.contexts, ecu, dev, AllKeys(dev[n..])) == all
    {
      NextFilter(dev, n);
      var i := 0;
      while i < |dev[n].keys|
        invariant 0 <= i <= |dev[n].keys| && SortedCtxs(list.contexts)
        invariant RaiseKeys(list.contexts, ecu, dev, dev[n].keys[i..] + AllKeys(dev[n + 1..])) == all
      {
        KeysFrom(dev, n, i);
        RaiseNext(list.contexts, ecu, dev, dev[n].keys[i..] + AllKeys(dev[n + 1..]));
        assert FilterOk(dev[n]);
        var key := Render(dev[n].keys[i]);
        var level := GetLevelByKey(dev, key);
        if level < 0 {
          return;
        }
        UpdateKeySameIds(list.contexts, ecu, dev[n].keys[i], level);
        UpdateContextLevel(list, ecu, key, level);
        i := i + 1;
      }
      n := n + 1;
    }
    assert dev[n..] == [];
    NoKeys(list.contexts, ecu, dev);
  }

  lemma {:induction false} NoKeys(ctxs: seq<Context>, ecu: seq<Byte>, dev: Device)
    ensures RaiseKeys(ctxs, ecu, dev, AllKeys([])) == ctxs && ResetKeys(ctxs, ecu, AllKeys([])) == ctxs
  {
  }

  lemma {:induction false} ResetNext(ctxs: seq<Context>, ecu: seq<Byte>, ks: seq<Key>)
    requires ks != []
    ensures ResetKeys(ctxs, ecu, ks) == ResetKeys(UpdateKey(ctxs, ecu, Render(ks[0]), -1), ecu, ks[1..])
  {
  }

  method ResetAllKeys(list: UserList, ecu: seq<Byte>, dev: Device)
    requires SortedCtxs(list.contexts) && DeviceOk(dev)
    modifies list`contexts
    ensures list.contexts == ResetKeys(old(list.contexts), ecu, AllKeys(dev))
    ensures SortedCtxs(list.contexts)
  {
    hide ResetKeys, AllKeys, UpdateKey, Render, SortedCtxs, KeyOk;
    ghost var all := ResetKeys(list.contexts, ecu, AllKeys(dev));
    assert dev[0..] == dev;
    var n := 0;
    while n < |dev|
      invariant 0 <= n <= |dev| && SortedCtxs(list.contexts)
      invariant ResetKeys(list.contexts, ecu, AllKeys(dev[n..])) == all
    {
      NextFilter(dev, n);
      var i := 0;
      while i < |dev[n].keys|
        invariant 0 <= i <= |dev[n].keys| && SortedCtxs(list.contexts)
        invariant ResetKeys(list.contexts, ecu, dev[n].keys[i..] + AllKeys(dev[n + 1..])) == all
      {
        KeysFrom(dev, n, i);
        ResetNext(list.contexts, ecu, dev[n].keys[i..] + AllKeys(dev[n + 1..]));
        assert FilterOk(dev[n]);
        UpdateKeySameIds(list.contexts, ecu, dev[n].keys[i], -1);
        UpdateContextLevel(list, ecu, Render(dev[n].keys[i]), -1);
        i := i + 1;
      }
      n := n + 1;
    }
    assert dev[n..] == [];
    NoKeys(list.contexts, ecu, dev);
  }

  /** A device is about to be disconnected: its keys reset, then all other devices raise again. `ready` tells
      whether it is connected and configured. */
  method ResetApplicationLevel(list: UserList, ecu: seq<Byte>, devs: seq<Device>, d: nat, ready: bool)
    requires SortedCtxs(list.contexts) && d < |devs| && forall i :: 0 <= i < |devs| ==> DeviceOk(devs[i])
    modifies list`contexts
    ensures list.contexts == ResetDevice(old(list.contexts), ecu, devs, d, ready)
    ensures SortedCtxs(list.contexts)
  {
    hide ResetKeys, AllKeys, UpdateDevice, SortedCtxs, DeviceOk;
    if !ready {
      return;
    }
    ghost var all := ResetDevice(list.contexts, ecu, devs, d, ready);
    ResetAllKeys(list, ecu, devs[d]);
    var i := 0;
    while i < |devs|
      invariant 0 <= i <= |devs| && SortedCtxs(list.contexts)
      invariant UpdateOthers(list.contexts, ecu, devs, d, i) == all
    {
      if i != d {
        UpdateApplicationLevel(list, ecu, devs[i]);
      }
      i := i + 1;
    }
  }

  // ---- the level for a new context

  method SearchConfig(dev: Device, ecu: seq<Byte>, apid: seq<Byte>, ctid: seq<Byte>) returns (config: seq<Filter>)
    ensures config == GetConfig(dev, ecu, apid, ctid)
    ensures var a, b := ListFind(dev, [58] + apid + [58]), ListFind(dev, [58, 58] + ctid);
      var c, d := ListFind(dev, [58] + apid + [58] + ctid), ListFind(dev, ecu + [58] + apid + [58] + ctid);
      var e, g := ListFind(dev, ecu + [58] + apid + [58]), ListFind(dev, ecu + [58, 58] + ctid);
      var h, n := ListFind(dev, ecu + [58, 58]), |dev|;
      config
        == a + if |a| == n then [] else
           b + if |a| + |b| == n then [] else
           c + if |a| + |b| + |c| == n then [] else
           d + if |a| + |b| + |c| + |d| == n then [] else
           e + if |a| + |b| + |c| + |d| + |e| == n then [] else
           g + if |a| + |b| + |c| + |d| + |e| + |g| == n then [] else h
  {
    ConfigInOrder(dev, ecu, apid, ctid);
    hide ListFind, Render, Tried;
    config := [];
    var keys := Tried(ecu, apid, ctid);
    var i := 0;
    while i < |keys|
      invariant 0 <= i <= |keys|
      invariant GetConfig(dev, ecu, apid, ctid) == config + ConfigFrom(dev, keys, |config|, i)
    {
      var found := FindInList(dev, Render(keys[i]));
      assert config + (found + ConfigFrom(dev, keys, |config| + |found|, i + 1))
          == config + found + ConfigFrom(dev, keys, |config| + |found|, i + 1);
      config := config + found;
      if |config| == |dev| {
        break;
      }
      i := i + 1;
    }
  }

  method LogLevel(devs: seq<Device>, ecu: seq<Byte>, apid: seq<Byte>, ctid: seq<Byte>) returns (level: int)
    ensures level == GetLevel(devs, ecu, apid, ctid, -1)
  {
    hide GetConfig;
    level := -1;
    var i := 0;
    assert devs[0..] == devs;
    while i < |devs|
      invariant 0 <= i <= |devs|
      invariant GetLevel(devs[i..], ecu, apid, ctid, level) == GetLevel(devs, ecu, apid, ctid, -1)
    {
      assert devs[i..][1..] == devs[i + 1..];
      var config := SearchConfig(devs[i], ecu, apid, ctid);
      level := ConfiguredLevel(config, level);
      i := i + 1;
    }
  }

  method ConfiguredLevel(config: seq<Filter>, before: int) returns (level: int)
    ensures level == LevelFrom(config, before)
  {
    level := before;
    var j := 0;
    while j < |config|
      invariant 0 <= j <= |config| && LevelFrom(config[j..], level) == LevelFrom(config, before)
    {
      assert config[j..][1..] == config[j + 1..];
      if !config[j].file {
        level := config[j].level;
        return;
      }
      level := if config[j].level > level then config[j].level else level;
      j := j + 1;
    }
  }
}

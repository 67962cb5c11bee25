/** Log levels that logstorage devices ask for: cached per context, computed anew for a new context. */
module Logstorage {
  import opened Ids
  import opened Registry
  import opened LevelScan
  import opened LogstorageKeys

  /** `file` tells whether the filter names a file to write to. */
  datatype Filter = Filter(keys: seq<Key>, level: int, file: bool)

  /** The filters of a configured device, none otherwise. */
  type Device = seq<Filter>

  // ---- the meaning

  predicate Covers(k: Key, ecu: seq<Byte>, c: Context) {
    && (k.ecu == [] || k.ecu == ecu)
    && (k.apid == [] || k.apid == Str(c.apid))
    && (k.ctid == [] || k.ctid == Str(c.ctid))
  }

  predicate Hits(keys: seq<Key>, ecu: seq<Byte>, c: Context) {
    exists j :: 0 <= j < |keys| && Covers(keys[j], ecu, c)
  }

  function HitFilters(dev: Device, ecu: seq<Byte>, c: Context): (r: seq<Filter>)
    ensures forall f :: f in r <==> f in dev && Hits(f.keys, ecu, c)
  {
    if dev == [] then []
    else (if Hits(dev[0].keys, ecu, c) then [dev[0]] else []) + HitFilters(dev[1..], ecu, c)
  }

  function Max(a: int, b: int): int {
    if a > b then a else b
  }

  /** The most verbose level, -1 if there is none. */
  function MaxLevel(fs: seq<Filter>): (m: int)
    ensures m >= -1
  {
    if fs == [] then -1 else Max(fs[0].level, MaxLevel(fs[1..]))
  }

  /** The level all devices together ask for: the simple definition. */
  function UnionLevel(devs: seq<Device>, ecu: seq<Byte>, c: Context): (m: int)
    ensures m >= -1
  {
    if devs == [] then -1 else Max(MaxLevel(HitFilters(devs[0], ecu, c)), UnionLevel(devs[1..], ecu, c))
  }

  // ---- looking up a key

  predicate HasKey(keys: seq<Key>, s: seq<Byte>) {
    exists j :: 0 <= j < |keys| && Render(keys[j]) == s
  }

  function ListFind(dev: Device, s: seq<Byte>): (r: seq<Filter>)
    ensures forall f :: f in r <==> f in dev && HasKey(f.keys, s)
  {
    if dev == [] then []
    else (if HasKey(dev[0].keys, s) then [dev[0]] else []) + ListFind(dev[1..], s)
  }

  /** With several filters the search for the highest level starts at 0. */
  function LevelByKey(dev: Device, s: seq<Byte>): int {
    var found := ListFind(dev, s);
    if |found| == 0 then -1 else if |found| == 1 then found[0].level else Max(0, MaxLevel(found))
  }

  // ---- changing the cached levels

  /** A level above 0 raises, anything else resets. */
  function Touch(c: Context, level: int): (d: Context)
    ensures d.apid == c.apid && d.ctid == c.ctid
  {
    c.(storage := if level > 0 then Max(level, c.storage) else LOG_DEFAULT)
  }

  function TouchAll(ctxs: seq<Context>, level: int): (r: seq<Context>)
    ensures |r| == |ctxs| && forall k :: 0 <= k < |ctxs| ==> r[k] == Touch(ctxs[k], level)
  {
    seq(|ctxs|, k requires 0 <= k < |ctxs| => Touch(ctxs[k], level))
  }

  function TouchApid(ctxs: seq<Context>, apid: seq<Byte>, level: int): (r: seq<Context>)
    ensures |r| == |ctxs| && forall k :: 0 <= k < |ctxs| ==> r[k] == if Str(ctxs[k].apid) == apid then Touch(ctxs[k], level) else ctxs[k]
  {
    seq(|ctxs|, k requires 0 <= k < |ctxs| => if Str(ctxs[k].apid) == apid then Touch(ctxs[k], level) else ctxs[k])
  }

  function TouchCtid(ctxs: seq<Context>, ctid: seq<Byte>, level: int): (r: seq<Context>)
    ensures |r| == |ctxs| && forall k :: 0 <= k < |ctxs| ==> r[k] == if Str(ctxs[k].ctid) == ctid then Touch(ctxs[k], level) else ctxs[k]
  {
    seq(|ctxs|, k requires 0 <= k < |ctxs| => if Str(ctxs[k].ctid) == ctid then Touch(ctxs[k], level) else ctxs[k])
  }

  function TouchPair(ctxs: seq<Context>, apid: Id, ctid: Id, level: int): (r: seq<Context>)
    ensures |r| == |ctxs|
  {
    var k := FindCtx(ctxs, apid, ctid);
    if apid != NO_ID && ctid != NO_ID && k < |ctxs| then ctxs[k := Touch(ctxs[k], level)] else ctxs
  }

  /** One key: all contexts, those of an application, those of a name, or a single one; contexts of another
      ECU are not in this list. */
  function UpdateKey(ctxs: seq<Context>, ecu: seq<Byte>, s: seq<Byte>, level: int): (r: seq<Context>)
    ensures |r| == |ctxs|
  {
    match SplitKey(s)
    case Bad => ctxs
    case Parts(e, a, c) =>
      if e != [] && e != ecu then ctxs
      else if c == WILDCARD && a == WILDCARD then TouchAll(ctxs, level)
      else if c == WILDCARD then TouchApid(ctxs, a, level)
      else if a == WILDCARD then TouchCtid(ctxs, c, level)
      else TouchPair(ctxs, SetId(a), SetId(c), level)
  }

  function AllKeys(dev: Device): seq<Key> {
    if dev == [] then [] else dev[0].keys + AllKeys(dev[1..])
  }

  /** A device was connected: every key raises; a key without a level ends the loop. */
  function RaiseKeys(ctxs: seq<Context>, ecu: seq<Byte>, dev: Device, ks: seq<Key>): (r: seq<Context>)
    ensures |r| == |ctxs|
    decreases |ks|
  {
    if ks == [] then ctxs
    else
      var level := LevelByKey(dev, Render(ks[0]));
      if level < 0 then ctxs
      else RaiseKeys(UpdateKey(ctxs, ecu, Render(ks[0]), level), ecu, dev, ks[1..])
  }

  function UpdateDevice(ctxs: seq<Context>, ecu: seq<Byte>, dev: Device): (r: seq<Context>)
    ensures |r| == |ctxs|
  {
    RaiseKeys(ctxs, ecu, dev, AllKeys(dev))
  }

  function ResetKeys(ctxs: seq<Context>, ecu: seq<Byte>, ks: seq<Key>): (r: seq<Context>)
    ensures |r| == |ctxs|
    decreases |ks|
  {
    if ks == [] then ctxs else ResetKeys(UpdateKey(ctxs, ecu, Render(ks[0]), -1), ecu, ks[1..])
  }

  /** Update for all devices from index i on, but for one. */
  function UpdateOthers(ctxs: seq<Context>, ecu: seq<Byte>, devs: seq<Device>, d: nat, i: nat): (r: seq<Context>)
    requires i <= |devs|
    ensures |r| == |ctxs|
    decreases |devs| - i
  {
    if i == |devs| then ctxs
    else UpdateOthers(if i == d then ctxs else UpdateDevice(ctxs, ecu, devs[i]), ecu, devs, d, i + 1)
  }

  /** A device is about to be disconnected; nothing happens if it is not connected or not configured. */
  function ResetDevice(ctxs: seq<Context>, ecu: seq<Byte>, devs: seq<Device>, d: nat, ready: bool): (r: seq<Context>)
    requires d < |devs|
    ensures |r| == |ctxs|
  {
    if !ready then ctxs
    else UpdateOthers(ResetKeys(ctxs, ecu, AllKeys(devs[d])), ecu, devs, d, 0)
  }

  // ---- the level for a new context

  /** The keys a context may be found under, in the order they are tried. */
  function Tried(ecu: seq<Byte>, apid: seq<Byte>, ctid: seq<Byte>): (r: seq<Key>)
    ensures |r| == 7
  {
    [Key([], apid, []), Key([], [], ctid), Key([], apid, ctid), Key(ecu, apid, ctid),
     Key(ecu, apid, []), Key(ecu, [], ctid), Key(ecu, [], [])]
  }

  /** Filters found with the keys from i on, n having been found before; it stops once as many were found as
      there are filters. */
  function ConfigFrom(dev: Device, ks: seq<Key>, n: nat, i: nat): seq<Filter>
    requires i <= |ks|
    decreases |ks| - i
  {
    if i == |ks| then []
    else
      var found := ListFind(dev, Render(ks[i]));
      if n + |found| == |dev| then found else found + ConfigFrom(dev, ks, n + |found|, i + 1)
  }

  function GetConfig(dev: Device, ecu: seq<Byte>, apid: seq<Byte>, ctid: seq<Byte>): seq<Filter> {
    ConfigFrom(dev, Tried(ecu, apid, ctid), 0, 0)
  }

  /** A filter without a file decides alone for its device. */
  function LevelFrom(fs: seq<Filter>, level: int): int {
    if fs == [] then level
    else if !fs[0].file then fs[0].level
    else LevelFrom(fs[1..], Max(fs[0].level, level))
  }

  function GetLevel(devs: seq<Device>, ecu: seq<Byte>, apid: seq<Byte>, ctid: seq<Byte>, level: int): int
    decreases |devs|
  {
    if devs == [] then level
    else GetLevel(devs[1..], ecu, apid, ctid, LevelFrom(GetConfig(devs[0], ecu, apid, ctid), level))
  }
}

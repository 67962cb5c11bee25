/** The counters as an index into the context table, and unregistering through it. */
module RegistryIndex {
  import opened Ids
  import opened Sorting
  import opened Registry

  /** Where the contexts of the application at index i start: the counters before it, added up. */
  function Offset(apps: seq<Application>, i: nat): int
    requires i <= |apps|
  {
    if i == 0 then 0 else Offset(apps, i - 1) + apps[i - 1].count
  }

  /** Number of contexts whose application is ordered before n. */
  function Below(ctxs: seq<Context>, n: int): (r: nat)
    ensures r <= |ctxs|
  {
    if ctxs == [] then 0 else (if Num(ctxs[0].apid) < n then 1 else 0) + Below(ctxs[1..], n)
  }

  lemma {:induction false} ApidsSorted(ctxs: seq<Context>, i: nat, j: nat)
    requires SortedCtxs(ctxs) && i <= j < |ctxs|
    ensures Num(ctxs[i].apid) <= Num(ctxs[j].apid)
  {
    if i < j {
      assert CtxKey(ctxs[i]) < CtxKey(ctxs[j]);
      CtxNumOrder(ctxs[i].apid, ctxs[i].ctid, ctxs[j].apid, ctxs[j].ctid);
    }
  }

  /** In a sorted table the contexts before n are the first ones. */
  lemma {:induction false} BelowSplits(ctxs: seq<Context>, n: int, k: nat)
    requires SortedCtxs(ctxs) && k < |ctxs|
    ensures Num(ctxs[k].apid) < n <==> k < Below(ctxs, n)
  {
    if k > 0 {
      ApidsSorted(ctxs, 0, k);
      BelowSplits(ctxs[1..], n, k - 1);
    } else if Num(ctxs[0].apid) >= n {
      BelowNone(ctxs, n);
    }
  }

  lemma {:induction false} BelowNone(ctxs: seq<Context>, n: int)
    requires SortedCtxs(ctxs) && (ctxs != [] ==> Num(ctxs[0].apid) >= n)
    ensures Below(ctxs, n) == 0
  {
    if |ctxs| > 1 {
      ApidsSorted(ctxs, 0, 1);
      BelowNone(ctxs[1..], n);
    }
  }

  /** Nothing of the table lies strictly between the application and n. */
  lemma {:induction false} BelowNext(ctxs: seq<Context>, apid: Id, n: int)
    requires Num(apid) < n
    requires forall k :: 0 <= k < |ctxs| ==> ctxs[k].apid == apid || Num(ctxs[k].apid) < Num(apid) || Num(ctxs[k].apid) >= n
    ensures Below(ctxs, n) == Below(ctxs, Num(apid)) + CountOf(ctxs, apid)
  {
    if ctxs != [] {
      assert forall k :: 0 <= k < |ctxs[1..]| ==> ctxs[1..][k] == ctxs[k + 1];
      BelowNext(ctxs[1..], apid, n);
    }
  }

  lemma {:induction false} BelowAll(ctxs: seq<Context>, n: int)
    requires forall k :: 0 <= k < |ctxs| ==> Num(ctxs[k].apid) < n
    ensures Below(ctxs, n) == |ctxs|
  {
    if ctxs != [] {
      assert forall k :: 0 <= k < |ctxs[1..]| ==> ctxs[1..][k] == ctxs[k + 1];
      BelowAll(ctxs[1..], n);
    }
  }

  /** The order number at index i, or the end. */
  function NumAt(apps: seq<Application>, i: nat): int {
    if i < |apps| then Num(apps[i].apid) else 0x1_0000_0000
  }

  /** A registered identifier is that of the application at index i, or ordered before it, or not before
      the next one. */
  lemma {:induction false} NothingBetween(apps: seq<Application>, apid: Id, i: nat)
    requires SortedApps(apps) && i < |apps| && apid in Apids(apps)
    ensures apid == apps[i].apid || Num(apid) < Num(apps[i].apid) || Num(apid) >= NumAt(apps, i + 1)
  {
    var j :| 0 <= j < |apps| && apps[j].apid == apid;
    if j < i {
      assert AppKey(apps[j]) < AppKey(apps[i]);
    } else if j > i + 1 {
      assert AppKey(apps[i + 1]) < AppKey(apps[j]);
    }
  }

  lemma {:induction false} BelowNextApp(apps: seq<Application>, ctxs: seq<Context>, i: nat)
    requires SortedApps(apps) && Homed(ctxs, Apids(apps)) && i < |apps|
    ensures Below(ctxs, NumAt(apps, i + 1)) == Below(ctxs, Num(apps[i].apid)) + CountOf(ctxs, apps[i].apid)
  {
    assert i + 1 < |apps| ==> AppKey(apps[i]) < AppKey(apps[i + 1]);
    forall k | 0 <= k < |ctxs|
      ensures ctxs[k].apid == apps[i].apid || Num(ctxs[k].apid) < Num(apps[i].apid) || Num(ctxs[k].apid) >= NumAt(apps, i + 1)
    {
      NothingBetween(apps, ctxs[k].apid, i);
    }
    BelowNext(ctxs, apps[i].apid, NumAt(apps, i + 1));
  }

  lemma {:induction false} NothingBeforeFirst(apps: seq<Application>, ctxs: seq<Context>)
    requires SortedApps(apps) && SortedCtxs(ctxs) && Homed(ctxs, Apids(apps))
    ensures Below(ctxs, NumAt(apps, 0)) == 0
  {
    if ctxs != [] {
      var j :| 0 <= j < |apps| && apps[j].apid == ctxs[0].apid;
      assert j > 0 ==> AppKey(apps[0]) < AppKey(apps[j]);
      BelowNone(ctxs, NumAt(apps, 0));
    }
  }

  lemma {:induction false} OffsetIsBelow(apps: seq<Application>, ctxs: seq<Context>, i: nat)
    requires SortedApps(apps) && SortedCtxs(ctxs) && CountsRight(apps, ctxs) && Homed(ctxs, Apids(apps))
    requires i <= |apps|
    ensures Offset(apps, i) == Below(ctxs, NumAt(apps, i))
  {
    if i == 0 {
      NothingBeforeFirst(apps, ctxs);
    } else {
      var j := i - 1;
      OffsetIsBelow(apps, ctxs, j);
      BelowNextApp(apps, ctxs, j);
      assert apps[j].count == CountOf(ctxs, apps[j].apid);
      assert NumAt(apps, j) == Num(apps[j].apid);
    }
  }

  /** The contexts with one application identifier lie between two offsets. */
  lemma {:induction false} SliceOf(ctxs: seq<Context>, apid: Id, k: nat)
    requires SortedCtxs(ctxs) && k < |ctxs|
    ensures Below(ctxs, Num(apid)) <= k < Below(ctxs, Num(apid)) + CountOf(ctxs, apid) <==> ctxs[k].apid == apid
    ensures Below(ctxs, Num(apid)) + CountOf(ctxs, apid) <= |ctxs|
  {
    forall j | 0 <= j < |ctxs| ensures ctxs[j].apid == apid || Num(ctxs[j].apid) < Num(apid) || Num(ctxs[j].apid) >= Num(apid) + 1 {
      NumInjective(ctxs[j].apid, apid);
    }
    BelowNext(ctxs, apid, Num(apid) + 1);
    BelowSplits(ctxs, Num(apid), k);
    BelowSplits(ctxs, Num(apid) + 1, k);
    NumInjective(ctxs[k].apid, apid);
  }

  /** The contexts of an application are exactly the slice that the counters describe. */
  lemma {:induction false} SliceExact(t: Tables, i: nat)
    requires Indexed(t) && i < |t.apps|
    ensures var o := Offset(t.apps, i); var n := t.apps[i].count;
      && 0 <= o <= o + n <= |t.ctxs|
      && forall k :: 0 <= k < |t.ctxs| ==> (o <= k < o + n <==> t.ctxs[k].apid == t.apps[i].apid)
  {
    OffsetIsBelow(t.apps, t.ctxs, i);
    CountZero(t.ctxs, t.apps[i].apid);
    forall k | 0 <= k < |t.ctxs|
      ensures Offset(t.apps, i) <= k < Offset(t.apps, i) + t.apps[i].count <==> t.ctxs[k].apid == t.apps[i].apid
      ensures Offset(t.apps, i) + t.apps[i].count <= |t.ctxs|
    {
      SliceOf(t.ctxs, t.apps[i].apid, k);
    }
    if |t.ctxs| > 0 {
      SliceOf(t.ctxs, t.apps[i].apid, 0);
    }
  }

  /** All slices together are the whole table. */
  lemma {:induction false} SlicesCover(t: Tables)
    requires Indexed(t)
    ensures Offset(t.apps, |t.apps|) == |t.ctxs|
  {
    OffsetIsBelow(t.apps, t.ctxs, |t.apps|);
    BelowAll(t.ctxs, 0x1_0000_0000);
  }

  // ---- unregistering

  /** Delete the n contexts from offset o on, the last one first. */
  function DeleteDown(t: Tables, o: nat, n: nat): (r: Tables)
    requires o + n <= |t.ctxs|
    ensures |r.apps| == |t.apps|
    decreases n
  {
    if n == 0 then t else DeleteDown(DelCtx(t, o + n - 1), o, n - 1)
  }

  lemma {:induction false} OthersSplit(a: seq<Context>, b: seq<Context>, apid: Id)
    ensures Others(a + b, apid) == Others(a, apid) + Others(b, apid)
  {
    if a == [] {
      assert a + b == b;
    } else {
      var first := if a[0].apid == apid then [] else [a[0]];
      assert (a + b)[1..] == a[1..] + b;
      calc {
        Others(a + b, apid);
        first + Others(a[1..] + b, apid);
        { OthersSplit(a[1..], b, apid); }
        first + (Others(a[1..], apid) + Others(b, apid));
        (first + Others(a[1..], apid)) + Others(b, apid);
      }
    }
  }

  lemma {:induction false} OthersAll(a: seq<Context>, apid: Id)
    requires forall k :: 0 <= k < |a| ==> a[k].apid != apid
    ensures Others(a, apid) == a
  {
    if a != [] {
      OthersAll(a[1..], apid);
    }
  }

  lemma {:induction false} OthersNone(a: seq<Context>, apid: Id)
    requires forall k :: 0 <= k < |a| ==> a[k].apid == apid
    ensures Others(a, apid) == []
  {
    if a != [] {
      OthersNone(a[1..], apid);
    }
  }

  /** Cutting the slice out leaves exactly the contexts of the others. */
  lemma {:induction false} OthersIsCut(ctxs: seq<Context>, apid: Id, o: nat, n: nat)
    requires o + n <= |ctxs|
    requires forall k :: 0 <= k < |ctxs| ==> (o <= k < o + n <==> ctxs[k].apid == apid)
    ensures Others(ctxs, apid) == ctxs[..o] + ctxs[o + n..]
  {
    hide Others;
    var a, b, c := ctxs[..o], ctxs[o..o + n], ctxs[o + n..];
    OthersAll(a, apid);
    OthersNone(b, apid);
    OthersAll(c, apid);
    OthersSplit(b, c, apid);
    OthersSplit(a, b + c, apid);
    assert ctxs == a + (b + c);
    assert Others(b + c, apid) == c;
  }

  lemma {:induction false} DeleteDownIndexed(t: Tables, o: nat, n: nat)
    requires Indexed(t) && o + n <= |t.ctxs|
    ensures Indexed(DeleteDown(t, o, n))
    decreases n
  {
    hide Indexed, DelCtx;
    if n > 0 {
      DelCtxIndexed(t, o + n - 1);
      DeleteDownIndexed(DelCtx(t, o + n - 1), o, n - 1);
    }
  }

  lemma {:induction false} FindAppBumped(apps: seq<Application>, a: nat, d: int, apid: Id)
    requires a < |apps|
    ensures FindApp(Bumped(apps, a, d), apid) == FindApp(apps, apid)
  {
    var r := Bumped(apps, a, d);
    assert forall i :: 0 <= i < |apps| ==> r[i].apid == apps[i].apid;
  }

  lemma {:induction false} BumpedTwice(apps: seq<Application>, a: nat, d: int, e: int)
    requires a < |apps|
    ensures Bumped(Bumped(apps, a, d), a, e) == Bumped(apps, a, d + e)
    ensures Bumped(apps, a, 0) == apps
  {
  }

  lemma {:induction false} CutOneLess(ctxs: seq<Context>, o: nat, k: nat)
    requires o <= k < |ctxs|
    ensures Removed(ctxs, k)[..o] + Removed(ctxs, k)[k..] == ctxs[..o] + ctxs[k + 1..]
    ensures forall j :: o <= j < k ==> Removed(ctxs, k)[j] == ctxs[j]
  {
  }

  /** The downward loop deletes the slice although each round shortens the table it indexes and
      decrements the counter it started from. */
  lemma {:induction false} DeleteDownCuts(t: Tables, apid: Id, i: nat, o: nat, n: nat)
    requires o + n <= |t.ctxs| && i == FindApp(t.apps, apid) < |t.apps|
    requires forall k :: o <= k < o + n ==> t.ctxs[k].apid == apid
    ensures DeleteDown(t, o, n).apps == Bumped(t.apps, i, 0 - n)
    ensures DeleteDown(t, o, n).ctxs == t.ctxs[..o] + t.ctxs[o + n..]
    decreases n
  {
    BumpedTwice(t.apps, i, -1, 1 - n);
    if n > 0 {
      var k := o + n - 1;
      assert t.ctxs[k].apid == apid;
      var v := DelCtx(t, k);
      CutOneLess(t.ctxs, o, k);
      FindAppBumped(t.apps, i, -1, apid);
      DeleteDownCuts(v, apid, i, o, n - 1);
    }
  }

  /** Unregistering an application through the counters removes it and all of its contexts and nothing
      else, keeps the order of the rest, and keeps the index. */
  lemma {:induction false} UnregisterExact(t: Tables, apid: Id)
    requires Indexed(t) && FindApp(t.apps, apid) < |t.apps|
    ensures var i := FindApp(t.apps, apid); var o := Offset(t.apps, i); var n := t.apps[i].count;
      && 0 <= o && 0 <= n && o + n <= |t.ctxs|
      && DelApp(DeleteDown(t, o, n), i) == Unregister(t, apid)
      && Indexed(Unregister(t, apid))
  {
    var i := FindApp(t.apps, apid);
    SliceExact(t, i);
    var o := Offset(t.apps, i);
    var n := t.apps[i].count;
    DeleteDownCuts(t, apid, i, o, n);
    DeleteDownIndexed(t, o, n);
    var u := DeleteDown(t, o, n);
    OthersIsCut(t.ctxs, apid, o, n);
    DelAppIndexed(u, i);
    assert Removed(ResetHandle(u, i).apps, i) == Removed(t.apps, i);
  }
}

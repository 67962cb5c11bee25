/** The size of the GET_LOG_INFO reply computed in the first pass against what the second pass writes. */
module LogInfoReplySize {
  import opened Ids
  import opened Registry
  import opened RegistryIndex
  import opened LogInfo
  import opened LogInfoReply

  /** What the first pass allows for the first n contexts of a list. */
  function CtxsRoom(option: int, cs: seq<Context>, n: nat): int
    requires n <= |cs|
  {
    n * CtxSize(option) + if WithText(option) then CtxTexts(cs, n) else 0
  }

  lemma {:induction false} CtxBytesSize(option: int, c: Context)
    ensures |CtxBytes(option, c)| == CtxSize(option) + (if WithText(option) then 2 + |c.description| else 0)
  {
  }

  lemma {:induction false} CtxsRoomStep(option: int, cs: seq<Context>, n: nat)
    requires n < |cs|
    ensures CtxsRoom(option, cs, n + 1) == CtxsRoom(option, cs, n) + |CtxBytes(option, cs[n])|
    ensures |CtxBytes(option, cs[n])| >= 4
  {
    CtxBytesSize(option, cs[n]);
    assert (n + 1) * CtxSize(option) == n * CtxSize(option) + CtxSize(option);
  }

  predicate AllShown(ctid: Id, cs: seq<Context>, n: nat)
    requires n <= |cs|
  {
    forall j :: 0 <= j < n ==> Shown(ctid, cs[j])
  }

  lemma {:induction false} CtxsFit(option: int, ctid: Id, cs: seq<Context>, n: nat)
    requires n <= |cs|
    ensures |CtxsBytes(option, ctid, cs, n)| <= CtxsRoom(option, cs, n)
    ensures |CtxsBytes(option, ctid, cs, n)| == CtxsRoom(option, cs, n) <==> AllShown(ctid, cs, n)
  {
    hide CtxBytes, CtxSize;
    if n > 0 {
      CtxsRoomStep(option, cs, n - 1);
      hide CtxsRoom;
      CtxsFit(option, ctid, cs, n - 1);
    }
  }

  lemma {:induction false} CtxsRoomGrows(option: int, cs: seq<Context>, m: nat, n: nat)
    requires m <= n <= |cs|
    ensures CtxsRoom(option, cs, m) <= CtxsRoom(option, cs, n)
    ensures m < n ==> CtxsRoom(option, cs, m) < CtxsRoom(option, cs, n)
  {
    if m < n {
      CtxsRoomStep(option, cs, n - 1);
      hide CtxsRoom;
      CtxsRoomGrows(option, cs, m, n - 1);
    }
  }

  lemma {:induction false} CtxsRoomEmpty(option: int, cs: seq<Context>)
    ensures CtxsRoom(option, cs, 0) == 0
  {
  }

  lemma {:induction false} CtxsRoomOfSlice(option: int, cs: seq<Context>, o: nat, n: nat)
    requires o + n <= |cs|
    ensures CtxsRoom(option, cs, o + n) == CtxsRoom(option, cs, o) + CtxsRoom(option, cs[o..o + n], n)
    decreases n
  {
    hide CtxsRoom, CtxBytes;
    CtxsRoomEmpty(option, cs[o..o + n]);
    if n > 0 {
      CtxsRoomOfSlice(option, cs, o, n - 1);
      CtxsRoomPrefix(option, cs[o..o + n], n - 1);
      assert cs[o..o + n][..n - 1] == cs[o..o + n - 1];
      CtxsRoomStep(option, cs, o + n - 1);
      CtxsRoomStep(option, cs[o..o + n], n - 1);
    }
  }

  lemma {:induction false} CtxsRoomPrefix(option: int, cs: seq<Context>, n: nat)
    requires n <= |cs|
    ensures CtxsRoom(option, cs[..n], n) == CtxsRoom(option, cs, n)
    decreases n
  {
    hide CtxsRoom, CtxBytes;
    CtxsRoomEmpty(option, cs);
    CtxsRoomEmpty(option, cs[..n]);
    if n > 0 {
      CtxsRoomPrefix(option, cs, n - 1);
      CtxsRoomPrefix(option, cs[..n], n - 1);
      assert cs[..n][..n - 1] == cs[..n - 1];
      CtxsRoomStep(option, cs, n - 1);
      CtxsRoomStep(option, cs[..n], n - 1);
    }
  }

  /** What the first pass allows for one application, without its contexts. */
  function AppRoom(option: int, a: Application): nat {
    6 + if WithText(option) then 2 + |a.description| else 0
  }

  /** One application stays within its share, and fills it if all its contexts are written. */
  lemma {:induction false} AppFits(t: Tables, r: Request, i: nat)
    requires i < |t.apps|
    ensures var cs := Source(t, r, i); var n := |AppBytes(t, r, i)|; var m := AppRoom(r.option, t.apps[i]) + CtxsRoom(r.option, cs, |cs|);
      && n <= m
      && (|cs| < 0x1_0000 ==> (n == m <==> AllShown(r.ctid, cs, |cs|)))
  {
    var cs := Source(t, r, i);
    var k := |cs| % 0x1_0000;
    CtxsFit(r.option, r.ctid, cs, k);
    CtxsRoomGrows(r.option, cs, k, |cs|);
    hide CtxsRoom, CtxsBytes, Source, AllShown;
  }

  /** What the first pass allows for the first k applications and their contexts. */
  function AppsRoom(t: Tables, option: int, k: nat): int
    requires k <= |t.apps|
  {
    if k == 0 then 0
    else AppsRoom(t, option, k - 1) + AppRoom(option, t.apps[k - 1]) + CtxsRoom(option, Slice(t, k - 1), |Slice(t, k - 1)|)
  }

  lemma {:induction false} SliceIs(t: Tables, i: nat)
    requires Indexed(t) && i < |t.apps|
    ensures var o := Offset(t.apps, i); var n := t.apps[i].count;
      0 <= o <= o + n == Offset(t.apps, i + 1) <= |t.ctxs| && Slice(t, i) == t.ctxs[o..o + n] && |Slice(t, i)| == n
  {
    SliceExact(t, i);
  }

  predicate CountsFit(t: Tables) {
    |t.apps| < 0x1_0000 && forall i :: 0 <= i < |t.apps| ==> t.apps[i].count < 0x1_0000
  }

  /** The slices together take what the table takes. */
  lemma {:induction false} AppsRoomTotal(t: Tables, option: int, k: nat)
    requires Indexed(t) && k <= |t.apps|
    ensures 0 <= Offset(t.apps, k) <= |t.ctxs|
    ensures AppsRoom(t, option, k)
         == k * 6 + CtxsRoom(option, t.ctxs, Offset(t.apps, k)) + if WithText(option) then AppTexts(t.apps, k) else 0
  {
    hide Indexed, CtxsRoom, Slice;
    if k == 0 {
      CtxsRoomEmpty(option, t.ctxs);
    } else {
      AppsRoomTotal(t, option, k - 1);
      SliceIs(t, k - 1);
      CtxsRoomOfSlice(option, t.ctxs, Offset(t.apps, k - 1), t.apps[k - 1].count);
    }
  }

  predicate AppsShown(t: Tables, ctid: Id, k: nat)
    requires k <= |t.apps|
  {
    k == 0 || (AppsShown(t, ctid, k - 1) && AllShown(ctid, Slice(t, k - 1), |Slice(t, k - 1)|))
  }

  lemma {:induction false} ShownSplit(ctid: Id, cs: seq<Context>, o: nat, n: nat)
    requires o + n <= |cs|
    ensures AllShown(ctid, cs, o + n) <==> AllShown(ctid, cs, o) && AllShown(ctid, cs[o..o + n], n)
  {
    var s := cs[o..o + n];
    if AllShown(ctid, cs, o) && AllShown(ctid, s, n) {
      forall j | 0 <= j < o + n ensures Shown(ctid, cs[j]) {
        if j >= o {
          assert cs[j] == s[j - o];
        }
      }
    }
    if AllShown(ctid, cs, o + n) {
      forall j | 0 <= j < n ensures Shown(ctid, s[j]) {
        assert s[j] == cs[o + j];
      }
    }
  }

  lemma {:induction false} NoneShown(ctid: Id, cs: seq<Context>)
    ensures AllShown(ctid, cs, 0)
  {
  }

  lemma {:induction false} AppsShownTotal(t: Tables, ctid: Id, k: nat)
    requires Indexed(t) && k <= |t.apps|
    ensures 0 <= Offset(t.apps, k) <= |t.ctxs|
    ensures AppsShown(t, ctid, k) <==> AllShown(ctid, t.ctxs, Offset(t.apps, k))
  {
    hide Indexed, Slice, AllShown;
    if k == 0 {
      NoneShown(ctid, t.ctxs);
    } else {
      AppsShownTotal(t, ctid, k - 1);
      SliceIs(t, k - 1);
      ShownSplit(ctid, t.ctxs, Offset(t.apps, k - 1), t.apps[k - 1].count);
    }
  }

  lemma {:induction false} AllAppsFit(t: Tables, r: Request, k: nat)
    requires Indexed(t) && r.apid == NO_ID && k <= |t.apps|
    ensures |AppsBytes(t, r, k)| <= AppsRoom(t, r.option, k)
    ensures CountsFit(t) ==> (|AppsBytes(t, r, k)| == AppsRoom(t, r.option, k) <==> AppsShown(t, r.ctid, k))
  {
    hide Indexed, Slice, AppBytes, AllShown, CtxsRoom, AppRoom;
    if k > 0 {
      AllAppsFit(t, r, k - 1);
      SliceIs(t, k - 1);
      AppFits(t, r, k - 1);
    }
  }

  lemma {:induction false} AppsRoomGrows(t: Tables, option: int, k: nat, n: nat)
    requires k <= n <= |t.apps|
    ensures AppsRoom(t, option, k) <= AppsRoom(t, option, n)
  {
    hide CtxsRoom, Slice;
    if k < n {
      AppsRoomGrows(t, option, k, n - 1);
      CtxsRoomGrows(option, Slice(t, n - 1), 0, |Slice(t, n - 1)|);
      CtxsRoomEmpty(option, Slice(t, n - 1));
    }
  }

  lemma {:induction false} AllRoom(t: Tables, r: Request)
    requires Indexed(t) && r.apid == NO_ID
    ensures DataSize(t, r) == 11 + AppsRoom(t, r.option, |t.apps|)
    ensures AppsShown(t, r.ctid, |t.apps|) <==> AllShown(r.ctid, t.ctxs, |t.ctxs|)
  {
    SlicesCover(t);
    hide Indexed, AllShown;
    AppsRoomTotal(t, r.option, |t.apps|);
    AppsShownTotal(t, r.ctid, |t.apps|);
  }

  lemma {:induction false} OneRoom(t: Tables, r: Request)
    requires Indexed(t) && r.apid != NO_ID && FindApp(t.apps, r.apid) < |t.apps|
    ensures var i := FindApp(t.apps, r.apid); var cs := Source(t, r, i);
      NumCtxs(t, r) == |cs| && DataSize(t, r) == 11 + AppRoom(r.option, t.apps[i]) + CtxsRoom(r.option, cs, |cs|)
  {
    SliceIs(t, FindApp(t.apps, r.apid));
    hide Indexed, Slice, FindCtx;
  }

  lemma {:induction false} SourceShown(t: Tables, r: Request, i: nat)
    requires i < |t.apps| && r.apid != NO_ID
    ensures var cs := Source(t, r, i); AllShown(r.ctid, cs, |cs|)
  {
    hide Slice;
  }

  /** The second pass never writes beyond the size of the first pass, for any request and any registry; it
      fills it exactly if at least one application is reported and, where a context is given without an
      application, all contexts match it. */
  lemma {:induction false} ReplyFits(t: Tables, r: Request)
    requires Indexed(t)
    ensures |Reply(t, r)| <= DataSize(t, r)
    ensures CountsFit(t) ==>
      (|Reply(t, r)| == DataSize(t, r) <==>
        NumApps(t, r) > 0 && (r.apid != NO_ID || AllShown(r.ctid, t.ctxs, |t.ctxs|)))
  {
    if r.apid == NO_ID {
      AllRepliesFit(t, r);
    } else if FindApp(t.apps, r.apid) < |t.apps| {
      OneReplyFits(t, r);
    }
  }

  lemma {:induction false} AllRepliesFit(t: Tables, r: Request)
    requires Indexed(t) && r.apid == NO_ID
    ensures |Reply(t, r)| <= DataSize(t, r)
    ensures CountsFit(t) ==> (|Reply(t, r)| == DataSize(t, r) <==> |t.apps| > 0 && AllShown(r.ctid, t.ctxs, |t.ctxs|))
  {
    hide Indexed, AppsBytes, DataSize, AllShown, AppsShown, AppsRoom, Reply, CountsFit;
    var n := |t.apps| % 0x1_0000;
    AllRoom(t, r);
    AllAppsFit(t, r, n);
    AppsRoomGrows(t, r.option, n, |t.apps|);
    AppsRoomGrows(t, r.option, 0, n);
    NoAppsRoom(t, r.option);
    AllReplyLength(t, r);
    FewApps(t);
  }

  lemma {:induction false} FewApps(t: Tables)
    ensures CountsFit(t) ==> |t.apps| % 0x1_0000 == |t.apps|
  {
  }

  lemma {:induction false} NoAppsRoom(t: Tables, option: int)
    ensures AppsRoom(t, option, 0) == 0
  {
  }

  lemma {:induction false} AllReplyLength(t: Tables, r: Request)
    requires r.apid == NO_ID
    ensures var n := |t.apps| % 0x1_0000; |Reply(t, r)| == 9 + if n == 0 then 0 else 2 + |AppsBytes(t, r, n)|
  {
    hide AppsBytes;
  }

  lemma {:induction false} OneReplyLength(t: Tables, r: Request)
    requires r.apid != NO_ID && FindApp(t.apps, r.apid) < |t.apps|
    ensures |Reply(t, r)| == 11 + |AppBytes(t, r, FindApp(t.apps, r.apid))|
  {
    hide AppBytes;
    assert AppsBytes(t, r, 0) == [];
    assert AppsBytes(t, r, 1) == [] + AppBytes(t, r, FindApp(t.apps, r.apid));
  }

  lemma {:induction false} OneSourceFits(t: Tables, r: Request)
    requires Indexed(t) && r.apid != NO_ID && FindApp(t.apps, r.apid) < |t.apps|
    ensures CountsFit(t) ==> |Source(t, r, FindApp(t.apps, r.apid))| < 0x1_0000
  {
    SliceIs(t, FindApp(t.apps, r.apid));
    hide Indexed, Slice, FindCtx;
  }

  lemma {:induction false} OneReplyFits(t: Tables, r: Request)
    requires Indexed(t) && r.apid != NO_ID && FindApp(t.apps, r.apid) < |t.apps|
    ensures |Reply(t, r)| <= DataSize(t, r)
    ensures CountsFit(t) ==> |Reply(t, r)| == DataSize(t, r)
  {
    hide *;
    var i := FindApp(t.apps, r.apid);
    OneRoom(t, r);
    OneSourceFits(t, r);
    SourceShown(t, r, i);
    AppFits(t, r, i);
    OneReplyLength(t, r);
  }
}

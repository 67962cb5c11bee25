/** What stands in a reply, field by field: which application, which context, which value where. */
module LogInfoMeaning {
  import opened Ids
  import opened Registry
  import opened RegistryIndex
  import opened LogInfo
  import opened LogInfoReply
  import opened LogInfoRoundTrip

  // ---- which contexts, which applications

  /** A context is among those that match if and only if it stands in the table under the application and has
      the identifier asked for, if one is asked for. */
  lemma {:induction false} MatchingIff(ctxs: seq<Context>, apid: Id, ctid: Id, c: Context)
    ensures c in Matching(ctxs, apid, ctid)
      <==> c in ctxs && c.apid == apid && (ctid == Id4(0, 0, 0, 0) || c.ctid == ctid)
  {
    if ctxs != [] {
      MatchingIff(ctxs[1..], apid, ctid, c);
    }
  }

  /** The order of the matching contexts is that of the table. */
  lemma {:induction false} MatchingInOrder(a: seq<Context>, c: Context, b: seq<Context>, apid: Id, ctid: Id)
    ensures Matching(a + [c] + b, apid, ctid)
      == Matching(a, apid, ctid)
         + (if c.apid == apid && (ctid == Id4(0, 0, 0, 0) || c.ctid == ctid) then [c] else [])
         + Matching(b, apid, ctid)
  {
    MatchingSplit(a + [c], b, apid, ctid);
    MatchingSplit(a, [c], apid, ctid);
    assert Matching([c][1..], apid, ctid) == [];
  }

  /** Which application the j-th reported one is: the j-th of the table if all are asked for, otherwise one that
      has the identifier. */
  lemma {:induction false} WhichApp(apps: seq<Application>, ctxs: seq<Context>, r: Request, j: nat) returns (i: nat)
    requires j < |Wanted(apps, ctxs, r)|
    ensures i < |apps| && Wanted(apps, ctxs, r)[j] == AppInfoOf(r.option, apps[i], Matching(ctxs, apps[i].apid, r.ctid))
    ensures if r.apid == Id4(0, 0, 0, 0) then i == j && |Wanted(apps, ctxs, r)| == |apps| else apps[i].apid == r.apid
  {
    hide AppInfoOf, Matching;
    if r.apid == NO_ID {
      WantedAll(apps, ctxs, r);
      i := j;
    } else {
      var first := if apps[0].apid == r.apid then 1 else 0;
      if first == 1 && j == 0 {
        i := 0;
      } else {
        var k := WhichApp(apps[1..], ctxs, r, j - first);
        i := k + 1;
      }
    }
  }

  // ---- which field

  /** What is reported of an application and of each of its contexts: the identifiers always, the level with
      the options 4, 6 and 7, the trace status with 5, 6 and 7, and descriptions with 7. */
  ghost predicate Tells(option: int, info: AppInfo, a: Application, cs: seq<Context>) {
    && info.apid == [a.apid.a, a.apid.b, a.apid.c, a.apid.d]
    && info.description == (if option == 7 then a.description else [])
    && |info.ctxs| == |cs|
    && forall k :: 0 <= k < |cs| ==>
         && info.ctxs[k].ctid == [cs[k].ctid.a, cs[k].ctid.b, cs[k].ctid.c, cs[k].ctid.d]
         && info.ctxs[k].level == (if option == 4 || option == 6 || option == 7 then cs[k].level else 0)
         && info.ctxs[k].status == (if option == 5 || option == 6 || option == 7 then cs[k].status else 0)
         && info.ctxs[k].description == (if option == 7 then cs[k].description else [])
  }

  /** Every application of what a request asks for tells these fields of its matching contexts, in table order. */
  lemma {:induction false} WantedFields(apps: seq<Application>, ctxs: seq<Context>, r: Request, j: nat) returns (i: nat)
    requires j < |Wanted(apps, ctxs, r)|
    ensures i < |apps| && (if r.apid == Id4(0, 0, 0, 0) then i == j else apps[i].apid == r.apid)
    ensures Tells(r.option, Wanted(apps, ctxs, r)[j], apps[i], Matching(ctxs, apps[i].apid, r.ctid))
  {
    i := WhichApp(apps, ctxs, r, j);
  }

  /** An application that is asked for is reported, even without contexts. */
  lemma {:induction false} AppReported(apps: seq<Application>, ctxs: seq<Context>, r: Request, i: nat) returns (j: nat)
    requires i < |apps| && (r.apid == Id4(0, 0, 0, 0) || apps[i].apid == r.apid)
    ensures j < |Wanted(apps, ctxs, r)|
    ensures Tells(r.option, Wanted(apps, ctxs, r)[j], apps[i], Matching(ctxs, apps[i].apid, r.ctid))
  {
    hide Matching;
    if i == 0 {
      j := 0;
    } else {
      hide Tells, AppInfoOf;
      var k := AppReported(apps[1..], ctxs, r, i - 1);
      j := |Wanted(apps, ctxs, r)| - |Wanted(apps[1..], ctxs, r)| + k;
    }
  }

  // ---- which byte

  /** The bytes of one context. */
  lemma {:induction false} CtxLayout(option: int, c: Context)
    ensures CtxBytes(option, c)
      == [c.ctid.a, c.ctid.b, c.ctid.c, c.ctid.d]
         + (if option == 4 || option == 6 || option == 7 then [c.level % 256] else [])
         + (if option == 5 || option == 6 || option == 7 then [c.status % 256] else [])
         + (if option == 7 then [|c.description| % 256, |c.description| / 256 % 256] + c.description else [])
  {
  }

  /** The bytes of one application: identifier, announced number, contexts, description. */
  lemma {:induction false} AppLayout(t: Tables, r: Request, i: nat)
    requires i < |t.apps|
    ensures var a, cs := t.apps[i], Source(t, r, i); var n := |cs| % 0x1_0000;
      AppBytes(t, r, i)
        == [a.apid.a, a.apid.b, a.apid.c, a.apid.d] + [n % 256, n / 256]
           + CtxsBytes(r.option, r.ctid, cs, n)
           + (if r.option == 7 then [|a.description| % 256, |a.description| / 256 % 256] + a.description else [])
  {
    hide Source, CtxsBytes;
    WrapTwice(|Source(t, r, i)|);
  }

  /** The whole reply: service 3, the option or 8, the number of applications, the applications, "remo". */
  lemma {:induction false} ReplyLayout(t: Tables, r: Request)
    requires Indexed(t) && Plain(r) && 3 <= r.option <= 7
    ensures var n := NumApps(t, r) % 0x1_0000;
      Reply(t, r)
        == [3, 0, 0, 0] + [if Found(Wanted(t.apps, t.ctxs, r)) then r.option else 8]
           + (if n == 0 then [] else [n % 256, n / 256] + AppsBytes(t, r, n))
           + [0x72, 0x65, 0x6d, 0x6f]
  {
    StatusMeaning(t, r);
    hide *;
    HeadLayout(t, r);
    BodyLayout(t, r);
  }

  lemma {:induction false} HeadLayout(t: Tables, r: Request)
    requires 3 <= Status(t, r) <= 8
    ensures Reply(t, r) == [3, 0, 0, 0] + [Status(t, r)] + Body(t, r) + [0x72, 0x65, 0x6d, 0x6f]
  {
    hide Body, Status;
    assert U32(3) == [3, 0, 0, 0];
  }

  lemma {:induction false} BodyLayout(t: Tables, r: Request)
    ensures var n := NumApps(t, r) % 0x1_0000;
      Body(t, r) == if n == 0 then [] else [n % 256, n / 256] + AppsBytes(t, r, n)
  {
    hide NumApps, AppsBytes;
    var n := NumApps(t, r) % 0x1_0000;
    assert n / 256 % 256 == n / 256;
  }

  /** The order within a reply that holds one application with one context and both descriptions. */
  lemma {:induction false} OneOfEach(t: Tables, r: Request)
    requires |t.apps| == 1 && |t.ctxs| == 1 && t.apps[0].count == 1 && t.ctxs[0].apid == t.apps[0].apid
    requires r == Request(7, NO_ID, NO_ID)
    ensures var a, c := t.apps[0], t.ctxs[0];
      Reply(t, r)
        == [3, 0, 0, 0] + [7] + [1, 0]
           + [a.apid.a, a.apid.b, a.apid.c, a.apid.d] + [1, 0]
           + ([c.ctid.a, c.ctid.b, c.ctid.c, c.ctid.d] + [c.level % 256] + [c.status % 256]
              + ([|c.description| % 256, |c.description| / 256 % 256] + c.description))
           + ([|a.description| % 256, |a.description| / 256 % 256] + a.description)
           + [0x72, 0x65, 0x6d, 0x6f]
  {
    hide *;
    OneStatus(t, r);
    HeadLayout(t, r);
    BodyLayout(t, r);
    OneApp(t, r);
    AppLayout(t, r, 0);
    CtxLayout(7, t.ctxs[0]);
  }

  lemma {:induction false} OneStatus(t: Tables, r: Request)
    requires |t.apps| == 1 && |t.ctxs| == 1 && r == Request(7, NO_ID, NO_ID)
    ensures Status(t, r) == 7 && NumApps(t, r) == 1
  {
  }

  lemma {:induction false} OneApp(t: Tables, r: Request)
    requires |t.apps| == 1 && |t.ctxs| == 1 && t.apps[0].count == 1
    requires r == Request(7, NO_ID, NO_ID)
    ensures Source(t, r, 0) == [t.ctxs[0]] && AppsBytes(t, r, 1) == AppBytes(t, r, 0)
    ensures CtxsBytes(7, NO_ID, [t.ctxs[0]], 1) == CtxBytes(7, t.ctxs[0])
  {
    hide CtxBytes, AppBytes;
    assert AppsBytes(t, r, 0) == [];
    assert CtxsBytes(7, NO_ID, [t.ctxs[0]], 0) == [];
  }
}

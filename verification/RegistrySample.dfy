/** A registry with one application, as runs reach it. */
module RegistrySample {
  import opened Ids
  import opened Sorting
  import opened Registry
  import opened RegistryHandles
  import opened RegistryRuns
  import opened LevelScan

  const P := Id4(80, 0, 0, 0)
  const Q := Id4(81, 0, 0, 0)
  const R := Id4(82, 0, 0, 0)

  function OneApp(d: seq<Byte>): Tables {
    Tables([Application(P, 1, 5, true, d, 0)], [])
  }

  /** The application with one context. */
  function OneCtx(d: seq<Byte>): Tables {
    Tables([Application(P, 1, 5, true, d, 1)], [Context(P, Q, 4, 0, 0, 5, d, 0, false)])
  }

  /** The application with two contexts, the first of which has the given level. */
  function TwoCtxs(d: seq<Byte>, level: int): Tables {
    Tables([Application(P, 1, 5, true, d, 2)],
           [Context(P, Q, level, 0, 0, 5, d, 0, false), Context(P, R, 4, 0, 0, 5, d, 0, false)])
  }

  lemma {:induction false} AppRegistered(d: seq<Byte>)
    ensures AddApp(Tables([], []), P, 1, d, 5, true) == OneApp(d)
  {
    var t := AppendedApp(Tables([], []), P);
    var u := Attach(t, 0, 1, d, 5, true);
    assert u.apps[0] == Application(P, 1, 5, true, d, 0) && |u.apps| == 1 && |u.ctxs| == 0;
    assert u == OneApp(d);
    assert u.apps[..0] == [];
  }

  lemma {:induction false} CtxRegistered(d: seq<Byte>, loaded: bool)
    ensures AddCtx(OneApp(d), loaded, P, Q, 4, 0, 0, 5, d) == OneCtx(d)
  {
  }

  lemma {:induction false} SecondRegistered(d: seq<Byte>, loaded: bool)
    ensures AddCtx(OneCtx(d), loaded, P, R, 4, 0, 0, 5, d) == TwoCtxs(d, 4)
  {
    var t := OneCtx(d);
    assert FindCtx(t.ctxs, P, R) == 1;
    assert CtxKey(t.ctxs[0]) < CtxNum(P, R) by {
      CtxNumOrder(P, Q, P, R);
    }
    assert Place(t.ctxs[1..], CtxKey, CtxNum(P, R)) == 0;
  }

  /** The level 7 is out of range, but nobody checks. */
  lemma {:induction false} LevelIsSet(d: seq<Byte>)
    ensures FullScan(TwoCtxs(d, 4), LevelRequest(P, Q), 7, _ => Sent, 0) == TwoCtxs(d, 7)
  {
    var t, q := TwoCtxs(d, 4), LevelRequest(P, Q);
    var outs: nat -> Outcome := _ => Sent;
    var u := SendLevel(t, 0, 7, Sent);
    assert u.ctxs == TwoCtxs(d, 7).ctxs;
    assert FullScan(u, q, 7, outs, 2) == u;
    assert !Targets(q, u.ctxs[1]);
    assert FullScan(u, q, 7, outs, 1) == u;
  }

  function Registrations(d: seq<Byte>): seq<Op> {
    [RegisterApp(P, 1, d, 5, true), RegisterCtx(P, Q, 4, 0, 0, d), RegisterCtx(P, R, 4, 0, 0, d),
     SetLevel(P, Q, 7, _ => Sent)]
  }

  lemma {:induction false} TwoApplied(t: Tables, loaded: bool, a: Op, b: Op)
    ensures ApplyAll(t, loaded, [a, b]) == Apply(Apply(t, loaded, a), loaded, b)
  {
    hide Apply;
    assert [a, b][1..] == [b] && [b][1..] == [];
    assert ApplyAll(Apply(t, loaded, a), loaded, [b]) == Apply(Apply(t, loaded, a), loaded, b);
  }

  lemma {:induction false} FourApplied(t: Tables, loaded: bool, a: Op, b: Op, c: Op, d: Op)
    ensures ApplyAll(t, loaded, [a, b, c, d]) == ApplyAll(Apply(Apply(t, loaded, a), loaded, b), loaded, [c, d])
  {
    hide Apply;
    assert [a, b, c, d][1..] == [b, c, d] && [b, c, d][1..] == [c, d];
    assert ApplyAll(Apply(t, loaded, a), loaded, [b, c, d]) == ApplyAll(Apply(Apply(t, loaded, a), loaded, b), loaded, [c, d]);
  }

  lemma {:induction false} StepsOf(d: seq<Byte>, loaded: bool)
    ensures var ops := Registrations(d);
      && Apply(Tables([], []), loaded, ops[0]) == OneApp(d)
      && Apply(OneApp(d), loaded, ops[1]) == OneCtx(d)
      && Apply(OneCtx(d), loaded, ops[2]) == TwoCtxs(d, 4)
      && Apply(TwoCtxs(d, 4), loaded, ops[3]) == TwoCtxs(d, 7)
  {
    AppRegistered(d);
    CtxRegistered(d, loaded);
    SecondRegistered(d, loaded);
    LevelIsSet(d);
    hide AddApp, AddCtx, FullScan;
  }

  /** Registrations and one request to set a level lead to a registry with a level out of range. */
  lemma {:induction false} Reached(d: seq<Byte>, loaded: bool)
    ensures ApplyAll(Tables([], []), loaded, Registrations(d)) == TwoCtxs(d, 7)
    ensures ApplyAll(Tables([], []), loaded, Registrations(d)[..2]) == OneCtx(d)
    ensures Indexed(TwoCtxs(d, 7)) && Indexed(OneCtx(d)) && Owned(OneCtx(d))
  {
    StepsOf(d, loaded);
    EmptyKept();
    var ops := Registrations(d);
    var t := Tables([], []);
    AllOk(d);
    hide Apply, ApplyAll, OneApp, OneCtx, TwoCtxs, Indexed, Owned, OpOk;
    TwoApplied(t, loaded, ops[0], ops[1]);
    assert ops[..2] == [ops[0], ops[1]];
    FourApplied(t, loaded, ops[0], ops[1], ops[2], ops[3]);
    TwoApplied(OneCtx(d), loaded, ops[2], ops[3]);
    assert ops == [ops[0], ops[1], ops[2], ops[3]];
    RunKeeps(t, loaded, ops);
    RunKeeps(t, loaded, ops[..2]);
  }

  lemma {:induction false} AllOk(d: seq<Byte>)
    ensures forall i :: 0 <= i < 4 ==> OpOk(Registrations(d)[i])
  {
  }
}

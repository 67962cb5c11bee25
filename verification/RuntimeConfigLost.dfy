/** Registries that saving and loading does not restore. */
module RuntimeConfigLost {
  import opened Ids
  import opened Registry
  import opened RegistryRuns
  import opened RegistrySample
  import opened RuntimeConfig
  import opened RuntimeConfigLoad

  lemma {:induction false} SamplePlain(d: seq<Byte>)
    requires d == [] || d == [100]
    ensures AppsPlain(TwoCtxs(d, 7).apps) && CtxsPlain(TwoCtxs(d, 7).ctxs)
    ensures AppsPlain(OneCtx(d).apps) && CtxsPlain(OneCtx(d).ctxs)
  {
    assert Str(P) == [80] && Str(Q) == [81] && Str(R) == [82];
    assert |Dec(7)| == 1 && |Dec(4)| == 1 && |Dec(0)| == 1;
  }

  /** A log client sets a level that is out of range. It is saved; when it is loaded, registering the context
      fails, and that context and all behind it are lost. */
  lemma {:induction false} LevelLosesContexts(loaded: bool, level: int, status: int)
    ensures var t := ApplyAll(Tables([], []), loaded, Registrations([100]));
      var x := LoadBoth(SaveApps(t.apps), SaveCtxs(t.ctxs), loaded, level, status);
      && |t.ctxs| == 2 && t.ctxs[0].level == 7
      && !x.ok && x.t.ctxs == [] && |x.t.apps| == 1
  {
    Reached([100], loaded);
    SamplePlain([100]);
    var t := TwoCtxs([100], 7);
    assert FirstBad(t.ctxs, 0) == 0;
    hide LoadBoth, Indexed, AppsPlain, CtxsPlain, ApplyAll;
    LoadsSaved(t, loaded, level, status);
  }

  /** An application and its context without descriptions come back with a newline for both. */
  lemma {:induction false} EmptyBecomesNewline(loaded: bool, level: int, status: int)
    ensures var t := ApplyAll(Tables([], []), loaded, Registrations([])[..2]);
      var x := LoadBoth(SaveApps(t.apps), SaveCtxs(t.ctxs), loaded, level, status);
      && |t.apps| == 1 && |t.ctxs| == 1 && t.apps[0].description == t.ctxs[0].description == []
      && x.ok && |x.t.apps| == 1 && |x.t.ctxs| == 1
      && x.t.apps[0].description == x.t.ctxs[0].description == [NEWLINE]
  {
    Reached([], loaded);
    SamplePlain([]);
    var t := OneCtx([]);
    assert FirstBad(t.ctxs, 0) == 1;
    hide LoadBoth, Indexed, AppsPlain, CtxsPlain, ApplyAll;
    LoadsSaved(t, loaded, level, status);
  }
}

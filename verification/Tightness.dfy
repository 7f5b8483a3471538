/** The bound on the number of passes cannot be improved: while nothing settles during a pass, a pass closes at most one
    gap, and it cannot succeed before all four are closed if the AI stage can do its work. */
module Tightness {
  import opened Store
  import opened Protocol
  import opened System
  import Safety
  import opened Stages
  import opened Passes
  import opened Convergence
  import opened Confluence
  import opened Fixpoint

  /** No gap closed so far; or one closed just now, by an object whose blank status will stop the pass; or stopped. */
  ghost predicate Slow(w: World, st: Worker, m: nat) {
    var ns := IdOf(st).ns;
    match st
    case Stop(_, out, _) => Missing(w, ns) == m || (Missing(w, ns) == m - 1 && !out.Succeeded?)
    case Fetch(_) => Missing(w, ns) == m
    case At(_, pc, _) =>
      || Missing(w, ns) == m
      || (Missing(w, ns) == m - 1 && pc.Reread? && IsGate(pc.slot)
          && Key(pc.slot, ns) in w.objects && w.objects[Key(pc.slot, ns)].status == EMPTY_STATUS)
  }

  lemma SlowMake(cfg: Config, w: World, st: Worker, m: nat)
    requires st.At? && st.pc.Make? && WellPlaced(cfg, st) && Slow(w, st, m)
    ensures var (w', r) := Exec(w, Request(cfg, st)); Slow(w', ResumeObject(cfg, st, r), m)
  {
  }

  lemma SlowAiCreate(cfg: Config, w: World, st: Worker, m: nat)
    requires st.At? && st.pc.AiCreate? && WellPlaced(cfg, st) && Slow(w, st, m)
    ensures var (w', r) := Exec(w, Request(cfg, st)); Slow(w', ResumeAi(cfg, st, r), m)
  {
  }

  lemma SlowReread(cfg: Config, w: World, st: Worker, m: nat)
    requires st.At? && st.pc.Reread? && Slow(w, st, m)
    ensures Slow(w, ResumeObject(cfg, st, Exec(w, Request(cfg, st)).1), m)
  {
  }

  /** Other calls leave the objects alone. */
  lemma SlowOther(cfg: Config, w: World, st: Worker, m: nat)
    requires !st.Stop? && (st.Fetch? ==> KeyedCrs(w)) && Slow(w, st, m)
    requires st.At? ==> !st.pc.Make? && !st.pc.AiCreate? && !st.pc.Reread?
    ensures var (w', r) := Exec(w, Request(cfg, st)); Slow(w', Resume(cfg, st, r), m)
  {
    Safety.ResumeKeepsId(cfg, st, Exec(w, Request(cfg, st)).1);
    assert Exec(w, Request(cfg, st)).0.objects == w.objects;
  }

  lemma SlowMove(cfg: Config, given: Readings, w: World, st: Worker, m: nat)
    requires !st.Stop? && WellPlaced(cfg, st) && KeyedCrs(w) && Slow(w, st, m)
    ensures var (w', st') := Move(cfg, given, QUIET, w, st); Slow(w', st', m) && KeyedCrs(w')
  {
    NothingSettles(cfg, given, w, st);
    MoveKeepsId(cfg, given, QUIET, w, st);
    if st.At? && st.pc.Make? { SlowMake(cfg, w, st, m); }
    else if st.At? && st.pc.AiCreate? { SlowAiCreate(cfg, w, st, m); }
    else if st.At? && st.pc.Reread? { SlowReread(cfg, w, st, m); }
    else { SlowOther(cfg, w, st, m); }
  }

  /** A quiet pass closes at most one gap, and none if it succeeds; and it meets no fault. */
  lemma {:induction false} QuietPass(cfg: Config, given: Readings, w: World, st: Worker, m: nat)
    requires WellPlaced(cfg, st) && KeyedCrs(w) && Slow(w, st, m)
    ensures var (w', st') := Pass(cfg, given, QUIET, w, st); Slow(w', st', m) && IdOf(st') == IdOf(st)
    ensures Faults(cfg, given, QUIET, w, st) == 0
    decreases Site(cfg, st)
  {
    if !st.Stop? {
      SlowMove(cfg, given, w, st, m);
      MoveDescends(cfg, given, QUIET, w, st);
      MoveKeepsId(cfg, given, QUIET, w, st);
      var (w', st') := Move(cfg, given, QUIET, w, st);
      QuietPass(cfg, given, w', st', m);
    }
  }

  function Quiet(k: nat): seq<Script> { seq(k, i => QUIET) }

  lemma NoGapLeft(cfg: Config, given: Readings, w0: World, w: World, ns: string)
    requires AiWanted(w0, ns) && AiDecided(given, w0, w, ns) && PresentAbove(cfg, w, ns, 0)
    ensures Missing(w, ns) == 0
  {
  }

  /** What one full quiet pass does to the gaps, when the AI stage could do its work at the start. */
  lemma OneQuietPass(cfg: Config, given: Readings, w0: World, cr: CR, w: World)
    requires cr.id in w0.crs && w0.crs[cr.id] == cr && KeyedCrs(w0) && AiWanted(w0, cr.id.ns)
    requires Faithful(cfg, given, w0, cr, w)
    ensures var (w', st') := FullPass(cfg, given, cr.id, QUIET, w);
            && Faithful(cfg, given, w0, cr, w')
            && Missing(w, cr.id.ns) - 1 <= Missing(w', cr.id.ns)
            && (st'.outcome.Succeeded? ==> Missing(w, cr.id.ns) == 0)
  {
    var w1, ns := SettleAll(given, w), cr.id.ns;
    SettleKeepsFaith(cfg, given, (k: Key) => true, w0, cr, w, Fetch(cr.id));
    SettledGaps(given, w, ns);
    FreshPlace(cfg, w1, cr.id);
    PassFollows(cfg, given, QUIET, w0, cr, w1, {}, Fetch(cr.id));
    QuietPass(cfg, given, w1, Fetch(cr.id), Missing(w, ns));
    var (w', st') := FullPass(cfg, given, cr.id, QUIET, w);
    if st'.outcome.Succeeded? { NoGapLeft(cfg, given, w0, w', ns); }
  }

  lemma SettledGaps(given: Readings, w: World, ns: string)
    ensures Missing(SettleAll(given, w), ns) == Missing(w, ns)
  {
  }

  lemma QuietTail(k: nat)
    requires k > 0
    ensures Quiet(k)[0] == QUIET && Quiet(k)[1..] == Quiet(k - 1)
  {
  }

  lemma {:induction false} NoneSucceedsEarly(cfg: Config, given: Readings, w0: World, cr: CR, w: World, k: nat)
    requires cr.id in w0.crs && w0.crs[cr.id] == cr && KeyedCrs(w0) && AiWanted(w0, cr.id.ns)
    requires Faithful(cfg, given, w0, cr, w)
    requires k <= Missing(w, cr.id.ns)
    ensures !SomeSucceeds(cfg, given, cr.id, w, Quiet(k))
    decreases k
  {
    if k > 0 {
      var next := FullPass(cfg, given, cr.id, QUIET, w);
      OneQuietPass(cfg, given, w0, cr, w);
      QuietTail(k);
      NoneSucceedsEarly(cfg, given, w0, cr, next.0, k - 1);
    }
  }

  lemma {:induction false} QuietIsFaultless(cfg: Config, given: Readings, id: CRName, w: World, k: nat)
    requires KeyedCrs(w)
    ensures TotalFaults(cfg, given, id, w, Quiet(k)) == 0
    decreases k
  {
    if k > 0 {
      var w1 := SettleAll(given, w);
      QuietPass(cfg, given, w1, Fetch(id), Missing(w1, id.ns));
      PassTakesNothing(cfg, given, QUIET, w1, Fetch(id));
      QuietTail(k);
      QuietIsFaultless(cfg, given, id, FullPass(cfg, given, id, QUIET, w).0, k - 1);
    }
  }

  lemma {:induction false} SettledFirst(cfg: Config, given: Readings, id: CRName, w: World, scripts: seq<Script>)
    ensures SomeSucceeds(cfg, given, id, SettleAll(given, w), scripts) == SomeSucceeds(cfg, given, id, w, scripts)
  {
    assert SettleAll(given, SettleAll(given, w)).objects == SettleAll(given, w).objects;
  }

  /** Five is exact. With no gate and no AIDeployment there yet, a usable AI stage and nothing going wrong, the fifth
      pass succeeds and none before it does. */
  lemma {:induction false} FiveIsExact(cfg: Config, given: Readings, w: World, id: CRName)
    requires id in w.crs && KeyedCrs(w) && Ripe(given, w, id.ns) && Missing(w, id.ns) == 4 && AiWanted(w, id.ns)
    ensures !SomeSucceeds(cfg, given, id, w, Quiet(4)) && SomeSucceeds(cfg, given, id, w, Quiet(5))
  {
    var w1 := SettleAll(given, w);
    SettledGaps(given, w, id.ns);
    StartIsFaithful(cfg, given, w.crs[id], w);
    NoneSucceedsEarly(cfg, given, w1, w.crs[id], w1, 4);
    SettledFirst(cfg, given, id, w, Quiet(4));
    QuietIsFaultless(cfg, given, id, w, 5);
    BoundedConvergence(cfg, given, id, w, Quiet(5));
  }
}

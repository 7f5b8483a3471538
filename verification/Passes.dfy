/** Passes of one worker on its own: statuses settle, calls fail and the process dies where a script says so. */
module Passes {
  import opened Store
  import opened Protocol
  import opened System

  /** What becomes of a call: it goes some way, or the process dies before it or right after it landed. */
  datatype Event = Goes(fate: Fate) | DiesBefore | DiesAfter

  /** What happens at each call site, and which statuses the other operators fill in just before it. */
  datatype Script = Script(events: nat -> Event, settled: (nat, Key) -> bool)

  /** The status that the other operators have in store for each object. */
  type Readings = Key -> Status

  function Settle(given: Readings, chosen: Key -> bool, w: World): World {
    w.(objects := map k | k in w.objects ::
         if chosen(k) then w.objects[k].(status := given(k)) else w.objects[k])
  }

  function SettleAll(given: Readings, w: World): World { Settle(given, (k: Key) => true, w) }

  function Dead(st: Worker): Worker { Stop(IdOf(st), Died, BLANK) }

  /** The world in which the call at the present site takes place. */
  function Before(cfg: Config, given: Readings, sc: Script, w: World, st: Worker): World {
    var n := Site(cfg, st);
    Settle(given, (k: Key) => sc.settled(n, k), w)
  }

  /** A call at which `event` happens. */
  function Happen(cfg: Config, w: World, st: Worker, event: Event): (World, Worker)
    requires !st.Stop?
  {
    match event
    case Goes(fate) => var (w', r) := Attempt(w, Request(cfg, st), fate); (w', Resume(cfg, st, r))
    case DiesBefore => (w, Dead(st))
    case DiesAfter => (Exec(w, Request(cfg, st)).0, Dead(st))
  }

  /** One call of the pass. */
  function Move(cfg: Config, given: Readings, sc: Script, w: World, st: Worker): (World, Worker)
    requires !st.Stop?
  {
    Happen(cfg, Before(cfg, given, sc, w, st), st, sc.events(Site(cfg, st)))
  }

  lemma MoveDescends(cfg: Config, given: Readings, sc: Script, w: World, st: Worker)
    requires !st.Stop? && WellPlaced(cfg, st)
    ensures WellPlaced(cfg, Move(cfg, given, sc, w, st).1)
    ensures Site(cfg, Move(cfg, given, sc, w, st).1) < Site(cfg, st)
  {
    if sc.events(Site(cfg, st)).Goes? {
      ResumeDescends(cfg, st,
        Attempt(Before(cfg, given, sc, w, st), Request(cfg, st), sc.events(Site(cfg, st)).fate).1);
    }
  }

  /** The rest of a pass. */
  function Pass(cfg: Config, given: Readings, sc: Script, w: World, st: Worker): (end: (World, Worker))
    requires WellPlaced(cfg, st)
    ensures end.1.Stop?
    decreases Site(cfg, st)
  {
    if st.Stop? then (w, st) else
    MoveDescends(cfg, given, sc, w, st);
    var (w', st') := Move(cfg, given, sc, w, st);
    Pass(cfg, given, sc, w', st')
  }

  /** How many calls of the rest of a pass do not go well. */
  function Faults(cfg: Config, given: Readings, sc: Script, w: World, st: Worker): nat
    requires WellPlaced(cfg, st)
    decreases Site(cfg, st)
  {
    if st.Stop? then 0 else
    MoveDescends(cfg, given, sc, w, st);
    var (w', st') := Move(cfg, given, sc, w, st);
    (if sc.events(Site(cfg, st)) == Goes(Fine) then 0 else 1) + Faults(cfg, given, sc, w', st')
  }

  const QUIET := Script((n: nat) => Goes(Fine), (n: nat, k: Key) => false)

  // ---------- a pass is a run of the system ----------

  /** The steps of the system that a call with event `event` stands for. */
  function EventSteps(cfg: Config, w: World, st: Worker, event: Event, r: nat): seq<Step>
    requires !st.Stop?
  {
    match event
    case Goes(fate) => [Call(r, fate)]
    case DiesBefore => [Crash(r)]
    case DiesAfter =>
      if Resume(cfg, st, Exec(w, Request(cfg, st)).1).Stop? then [Call(r, Fine)] else [Call(r, Fine), Crash(r)]
  }

  function MoveSteps(cfg: Config, given: Readings, sc: Script, w: World, st: Worker, r: nat): seq<Step>
    requires !st.Stop?
  {
    var w1 := Before(cfg, given, sc, w, st);
    [Environment(w1)] + EventSteps(cfg, w1, st, sc.events(Site(cfg, st)), r)
  }

  lemma {:induction false} OneStep(cfg: Config, s: Sys, step: Step)
    requires Enabled(s, step) && GentleStep(s, step)
    ensures Valid(cfg, s, [step]) && Gentle(cfg, s, [step]) && Run(cfg, s, [step]) == Apply(cfg, s, step)
  {
  }

  lemma SettledIsUndisturbed(given: Readings, chosen: Key -> bool, w: World)
    requires KeyedCrs(w)
    ensures Undisturbed(w, Settle(given, chosen, w))
  {
  }

  /** Up to how a dead pass is marked, the run does what the script says. */
  ghost predicate Mirrors(s: Sys, r: nat, end: (World, Worker)) {
    && s.w == end.0 && r in s.workers && KeyedCrs(s.w)
    && (if end.1.Stop? && end.1.outcome.Died? then s.workers[r].st.Stop? else s.workers[r].st == end.1)
  }

  lemma CallStep(cfg: Config, s: Sys, r: nat, fate: Fate)
    requires Busy(s, r)
    ensures var s', (w', reply) := DoCall(cfg, s, r, fate), Attempt(s.w, Request(cfg, s.workers[r].st), fate);
            && s'.w == w' && r in s'.workers && s'.workers[r].st == Resume(cfg, s.workers[r].st, reply)
            && w'.crs == s.w.crs
  {
  }

  lemma {:induction false} EventIsRun(cfg: Config, event: Event, s: Sys, r: nat)
    requires Busy(s, r) && KeyedCrs(s.w)
    ensures var steps := EventSteps(cfg, s.w, s.workers[r].st, event, r);
            Valid(cfg, s, steps) && Gentle(cfg, s, steps)
            && Mirrors(Run(cfg, s, steps), r, Happen(cfg, s.w, s.workers[r].st, event))
  {
    var steps := EventSteps(cfg, s.w, s.workers[r].st, event, r);
    if event.DiesBefore? {
      OneStep(cfg, s, Crash(r));
    } else {
      var fate := if event.Goes? then event.fate else Fine;
      CallStep(cfg, s, r, fate);
      OneStep(cfg, s, Call(r, fate));
      if |steps| == 2 {
        var s1 := Apply(cfg, s, Call(r, Fine));
        OneStep(cfg, s1, Crash(r));
        RunConcat(cfg, s, [Call(r, Fine)], [Crash(r)]);
        assert steps == [Call(r, Fine)] + [Crash(r)];
      }
    }
  }

  lemma {:induction false} MoveIsRun(cfg: Config, given: Readings, sc: Script, s: Sys, r: nat)
    requires Busy(s, r) && KeyedCrs(s.w)
    ensures var steps := MoveSteps(cfg, given, sc, s.w, s.workers[r].st, r);
            Valid(cfg, s, steps) && Gentle(cfg, s, steps)
            && Mirrors(Run(cfg, s, steps), r, Move(cfg, given, sc, s.w, s.workers[r].st))
  {
    var st := s.workers[r].st;
    var steps := MoveSteps(cfg, given, sc, s.w, st, r);
    var w1 := Before(cfg, given, sc, s.w, st);
    SettledIsUndisturbed(given, (k: Key) => sc.settled(Site(cfg, st), k), s.w);
    OneStep(cfg, s, Environment(w1));
    var s1 := Apply(cfg, s, Environment(w1));
    EventIsRun(cfg, sc.events(Site(cfg, st)), s1, r);
    RunConcat(cfg, s, [Environment(w1)], steps[1..]);
    assert steps == [Environment(w1)] + steps[1..];
  }

  /** Every scripted pass is a run of the concurrent system, so all that holds of runs holds of passes. */
  lemma {:induction false} PassIsRun(cfg: Config, given: Readings, sc: Script, s: Sys, r: nat)
      returns (steps: seq<Step>)
    requires r in s.workers && KeyedCrs(s.w) && WellPlaced(cfg, s.workers[r].st)
    ensures Valid(cfg, s, steps) && Gentle(cfg, s, steps)
    ensures Mirrors(Run(cfg, s, steps), r, Pass(cfg, given, sc, s.w, s.workers[r].st))
    decreases Site(cfg, s.workers[r].st)
  {
    var st := s.workers[r].st;
    if st.Stop? {
      steps := [];
    } else {
      MoveIsRun(cfg, given, sc, s, r);
      MoveDescends(cfg, given, sc, s.w, st);
      var head := MoveSteps(cfg, given, sc, s.w, st, r);
      var s1 := Run(cfg, s, head);
      var tail := PassIsRun(cfg, given, sc, s1, r);
      RunConcat(cfg, s, head, tail);
      steps := head + tail;
    }
  }
}

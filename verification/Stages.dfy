/** The order of the stages, as an invariant of every run without deletions: whatever is present rests on all that
    must come before it, and a pass that reports success has left nothing out. */
module Stages {
  import opened Store
  import opened Endpoints
  import opened Protocol
  import opened System
  import opened Safety

  /** What a successful pass must leave behind. */
  predicate Mandatory(cfg: Config, s: Slot) { !IsAi(s) && (IsKnative(s) ==> KnativeOn(cfg)) }

  /** How far a pass has come; beyond all stages when it has stopped without success. */
  function Point(st: Worker): nat {
    match st
    case Fetch(_) => 300
    case At(_, pc, _) => Position(pc)
    case Stop(_, out, _) => if out.Succeeded? then 0 else 300
  }

  predicate BothIndices(w: World, memo: Memo) {
    memo.es.Some? && (memo.es.value, Raw) in w.indices && (memo.es.value, Risk) in w.indices
  }

  ghost predicate PresentAbove(cfg: Config, w: World, ns: string, p: nat) {
    forall a :: Mandatory(cfg, a) && Weight(a) + 1 >= p ==> Key(a, ns) in w.objects
  }

  predicate ReadBack(s: Slot) { IsGate(s) || s.KafkaTopic? }

  ghost predicate ConfirmedAbove(ready: set<Key>, ns: string, p: nat) {
    forall g :: ReadBack(g) && Weight(g) >= p ==> Key(g, ns) in ready
  }

  /** What a pass may rely on at its present point, in spite of everyone else. */
  ghost predicate Place(cfg: Config, w: World, ready: set<Key>, st: Worker) {
    && WellPlaced(cfg, st)
    && PresentAbove(cfg, w, IdOf(st).ns, Point(st))
    && ConfirmedAbove(ready, IdOf(st).ns, Point(st))
    && (Point(st) < 131 ==> BothIndices(w, st.memo))
    && (st.At? && st.pc.EsPut? && st.pc.topic.Risk? ==> (st.pc.es, Raw) in w.indices)
    && (st.At? && st.pc.Predict? && st.pc.seen.SeenObject? ==> Key(EventProcessingTask, IdOf(st).ns) in w.objects)
  }

  /** Between a slot and what follows it there is no other mandatory slot. */
  lemma NothingSkipped(cfg: Config, s: Slot, a: Slot)
    requires Mandatory(cfg, s) && Mandatory(cfg, a)
    ensures var p := if AfterEnsured(cfg, s).Some? then Position(AfterEnsured(cfg, s).value) else 0;
            Weight(a) + 1 >= p ==> a == s || Weight(a) + 1 >= Weight(s) + 4
  {
  }

  lemma EnsuredPlace(cfg: Config, w: World, ready: set<Key>, st: Worker, s: Slot)
    requires st.At? && WellPlaced(cfg, st) && Mandatory(cfg, s) && Key(s, st.cr.id.ns) in w.objects
    requires PresentAbove(cfg, w, st.cr.id.ns, Weight(s) + 4) && ConfirmedAbove(ready, st.cr.id.ns, Weight(s) + 2)
    requires Weight(s) < 131 ==> BothIndices(w, st.memo)
    requires WellPlaced(cfg, Ensured(cfg, st, s))
    ensures Place(cfg, w, ready, Ensured(cfg, st, s))
  {
    var st' := Ensured(cfg, st, s);
    forall a | Mandatory(cfg, a) && Weight(a) + 1 >= Point(st') ensures Key(a, st.cr.id.ns) in w.objects {
      NothingSkipped(cfg, s, a);
    }
  }

  function Observed(ready: set<Key>, st: Worker, op: Op, reply: Reply): set<Key> {
    if st.At? && st.pc.Reread? && op.Get? && Confirms(op.key.slot, reply) then ready + {op.key} else ready
  }

  lemma AttemptGrows(w: World, op: Op, fate: Fate)
    ensures var w' := Attempt(w, op, fate).0; w.objects.Keys <= w'.objects.Keys && w.indices <= w'.indices
  {
  }

  lemma PlaceGrows(cfg: Config, w: World, w': World, ready: set<Key>, ready': set<Key>, st: Worker)
    requires Place(cfg, w, ready, st)
    requires w.objects.Keys <= w'.objects.Keys && w.indices <= w'.indices && ready <= ready'
    ensures Place(cfg, w', ready', st)
  {
  }

  /** No mandatory slot and no gate lies between two call sites. */
  ghost predicate Adjacent(cfg: Config, p: nat, p': nat) {
    && (forall a :: Mandatory(cfg, a) && Weight(a) + 1 >= p' ==> Weight(a) + 1 >= p)
    && (forall g :: ReadBack(g) && Weight(g) >= p' ==> Weight(g) >= p)
    && (p' < 131 ==> p < 131)
  }

  lemma PlaceMoves(cfg: Config, w: World, ready: set<Key>, st: Worker, pc: Pc, clean: bool)
    requires st.At? && Place(cfg, w, ready, st) && Adjacent(cfg, Position(st.pc), Position(pc))
    requires WellPlaced(cfg, st.(pc := pc)) && !pc.Predict?
    requires pc.EsPut? && pc.topic.Risk? ==> (pc.es, Raw) in w.indices
    ensures Place(cfg, w, ready, At(st.cr, pc, st.memo.(aiClean := clean)))
  {
  }

  lemma StoppedPlace(cfg: Config, w: World, ready: set<Key>, st: Worker)
    requires st.Stop? && !st.outcome.Succeeded?
    ensures Place(cfg, w, ready, st)
  {
  }

  lemma LookPlace(cfg: Config, w: World, ready: set<Key>, st: Worker, r: Reply)
    requires st.At? && st.pc.Look? && Place(cfg, w, ready, st)
    requires r.Found? ==> Key(st.pc.slot, st.cr.id.ns) in w.objects
    ensures Place(cfg, w, ready, ResumeObject(cfg, st, r))
  {
    var s, ns := st.pc.slot, st.cr.id.ns;
    ObjectDescends(cfg, st, r);
    if s.EventProcessingTask? {
      assert forall a :: Mandatory(cfg, a) && Weight(a) + 1 >= 123 ==> Weight(a) + 1 >= 124;
    } else if r.Found? {
      EnsuredPlace(cfg, w, ready, st, s);
    } else if r.NotFound? {
      assert forall a :: Mandatory(cfg, a) && Weight(a) + 1 >= Weight(s) + 2 ==> Weight(a) + 1 >= Weight(s) + 4;
      PlaceMoves(cfg, w, ready, st, Make(s, st.pc.reading), st.memo.aiClean);
    } else {
      StoppedPlace(cfg, w, ready, ResumeObject(cfg, st, r));
    }
  }

  lemma MakePlace(cfg: Config, w: World, ready: set<Key>, st: Worker, r: Reply)
    requires st.At? && st.pc.Make? && Place(cfg, w, ready, st)
    requires r.Done? ==> Key(st.pc.slot, st.cr.id.ns) in w.objects
    ensures Place(cfg, w, ready, ResumeObject(cfg, st, r))
  {
    ObjectDescends(cfg, st, r);
    if r.Done? {
      EnsuredPlace(cfg, w, ready, st, st.pc.slot);
    } else {
      StoppedPlace(cfg, w, ready, ResumeObject(cfg, st, r));
    }
  }

  lemma RereadPlace(cfg: Config, w: World, ready: set<Key>, st: Worker, r: Reply)
    requires st.At? && st.pc.Reread? && Place(cfg, w, ready, st)
    requires Confirms(st.pc.slot, r) ==> Key(st.pc.slot, st.cr.id.ns) in ready
    ensures Place(cfg, w, ready, ResumeObject(cfg, st, r))
  {
    var s := st.pc.slot;
    var st' := ResumeObject(cfg, st, r);
    ObjectDescends(cfg, st, r);
    if st'.At? {
      assert forall a :: Mandatory(cfg, a) && Weight(a) + 1 >= Point(st') ==> Weight(a) + 1 >= Weight(s) + 1;
      assert forall g :: ReadBack(g) && Weight(g) >= Point(st') ==> g == s || Weight(g) >= Weight(s) + 1;
    }
  }

  lemma AiPlace(cfg: Config, w: World, ready: set<Key>, st: Worker, r: Reply)
    requires st.At? && InAi(st.pc) && Place(cfg, w, ready, st)
    ensures Place(cfg, w, ready, ResumeAi(cfg, st, r))
  {
    var st' := ResumeAi(cfg, st, r);
    AiDescends(cfg, st, r);
    if st'.At? {
      assert 164 <= Position(st'.pc) && Position(st.pc) <= 179;
      assert Adjacent(cfg, Position(st.pc), Position(st'.pc));
      PlaceMoves(cfg, w, ready, st, st'.pc, st'.memo.aiClean);
    }
  }

  lemma EsPlace(cfg: Config, w: World, ready: set<Key>, st: Worker, r: Reply)
    requires st.At? && InEs(st.pc) && Place(cfg, w, ready, st)
    requires st.pc.EsPut? && r.HttpReply? && Accepted(r.http) ==> (st.pc.es, st.pc.topic) in w.indices
    ensures Place(cfg, w, ready, ResumeEs(st, r))
  {
  }

  lemma ReadingPlace(cfg: Config, w: World, ready: set<Key>, st: Worker, r: Reply)
    requires st.At? && (st.pc.Predict? || st.pc.KafkaInfo?) && Place(cfg, w, ready, st)
    ensures Place(cfg, w, ready, ResumeReading(cfg, st, r))
  {
    var st' := ResumeReading(cfg, st, r);
    ReadingDescends(cfg, st, r);
    if st.pc.Predict? && st.pc.seen.SeenObject? {
      EnsuredPlace(cfg, w, ready, st, EventProcessingTask);
    } else if st'.At? {
      assert Adjacent(cfg, Position(st.pc), Position(st'.pc));
      PlaceMoves(cfg, w, ready, st, st'.pc, st'.memo.aiClean);
    }
  }

  /** All that was there in one world or the other. */
  function Remember(seen: World, w: World): World {
    seen.(objects := seen.objects + w.objects, indices := seen.indices + w.indices)
  }

  /** One call takes a pass from a sound place to a sound place, even if the pass relies on things it has seen that
      are not there any more. */
  lemma CallRemembered(cfg: Config, seen: World, w: World, ready: set<Key>, st: Worker, fate: Fate)
    requires !st.Stop? && Place(cfg, seen, ready, st)
    ensures var op := Request(cfg, st); var (w', r) := Attempt(w, op, fate);
            Place(cfg, Remember(seen, w'), Observed(ready, st, op, r), Resume(cfg, st, r))
  {
    var op := Request(cfg, st);
    var (w', r) := Attempt(w, op, fate);
    var ready', seen' := Observed(ready, st, op, r), Remember(seen, w');
    AttemptGrows(w, op, fate);
    PlaceGrows(cfg, seen, seen', ready, ready', st);
    if st.At? {
      if InAi(st.pc) { AiPlace(cfg, seen', ready', st, r); }
      else if InEs(st.pc) { EsPlace(cfg, seen', ready', st, r); }
      else if st.pc.Predict? || st.pc.KafkaInfo? { ReadingPlace(cfg, seen', ready', st, r); }
      else if st.pc.Look? { LookPlace(cfg, seen', ready', st, r); }
      else if st.pc.Make? { MakePlace(cfg, seen', ready', st, r); }
      else { RereadPlace(cfg, seen', ready', st, r); }
    }
  }

  /** While nothing disappears, what a pass has seen is there. */
  lemma CallPlace(cfg: Config, w: World, ready: set<Key>, st: Worker, fate: Fate)
    requires !st.Stop? && Place(cfg, w, ready, st)
    ensures var op := Request(cfg, st); var (w', r) := Attempt(w, op, fate);
            Place(cfg, w', Observed(ready, st, op, r), Resume(cfg, st, r))
  {
    var op := Request(cfg, st);
    var (w', r) := Attempt(w, op, fate);
    AttemptGrows(w, op, fate);
    CallRemembered(cfg, w, w, ready, st, fate);
    var ready' := Observed(ready, st, op, r);
    PlaceGrows(cfg, Remember(w, w'), w', ready', ready', Resume(cfg, st, r));
  }

  // ---------- over whole runs ----------

  ghost predicate AllPlaced(cfg: Config, s: Sys) {
    forall r :: r in s.workers ==> Place(cfg, s.w, s.h.confirmed, s.workers[r].st)
  }

  /** A step by anyone, in which nothing is deleted, keeps the place of each pass. */
  lemma StepPlacedOne(cfg: Config, s: Sys, step: Step, r: nat)
    requires Enabled(s, step) && GentleStep(s, step) && r in s.workers
    requires Place(cfg, s.w, s.h.confirmed, s.workers[r].st)
    ensures var s' := Apply(cfg, s, step);
            r in s'.workers && Place(cfg, s'.w, s'.h.confirmed, s'.workers[r].st) && s.h.confirmed <= s'.h.confirmed
  {
    var s' := Apply(cfg, s, step);
    if step.Call? { AttemptGrows(s.w, Request(cfg, s.workers[step.r].st), step.fate); }
    if step.Call? && step.r == r {
      CallPlace(cfg, s.w, s.h.confirmed, s.workers[r].st, step.fate);
    } else if s'.workers[r] == s.workers[r] {
      PlaceGrows(cfg, s.w, s'.w, s.h.confirmed, s'.h.confirmed, s.workers[r].st);
    }
  }

  lemma StepPlaced(cfg: Config, s: Sys, step: Step)
    requires AllPlaced(cfg, s) && Enabled(s, step) && GentleStep(s, step)
    ensures AllPlaced(cfg, Apply(cfg, s, step))
    ensures s.h.confirmed <= Apply(cfg, s, step).h.confirmed
  {
    var s' := Apply(cfg, s, step);
    forall r | r in s'.workers ensures Place(cfg, s'.w, s'.h.confirmed, s'.workers[r].st) {
      if r in s.workers { StepPlacedOne(cfg, s, step, r); }
    }
  }

  // ---------- success ----------

  /** Whatever a pass remembers from a point on is there, or somebody has deleted it since. */
  ghost predicate Backed(start: Sys, s: Sys, seen: World) {
    && (forall k :: s.h.deletes[k] >= start.h.deletes[k])
    && (forall i :: s.h.dropped[i] >= start.h.dropped[i])
    && (forall k :: k in seen.objects ==> k in s.w.objects || s.h.deletes[k] > start.h.deletes[k])
    && (forall i :: i in seen.indices ==> i in s.w.indices || s.h.dropped[i] > start.h.dropped[i])
  }

  lemma StepBacked(cfg: Config, start: Sys, s: Sys, step: Step, seen: World)
    requires Enabled(s, step) && Backed(start, s, seen)
    ensures Backed(start, Apply(cfg, s, step), Remember(seen, Apply(cfg, s, step).w))
  {
    if step.Call? {
      AttemptGrows(s.w, Request(cfg, s.workers[step.r].st), step.fate);
      CallCreatesAtMostOne(cfg, s, step.r, step.fate);
    }
  }

  lemma StepRemembered(cfg: Config, s: Sys, step: Step, r: nat, seen: World)
    requires Enabled(s, step) && r in s.workers && Place(cfg, seen, s.h.confirmed, s.workers[r].st)
    ensures var s' := Apply(cfg, s, step);
            r in s'.workers && Place(cfg, Remember(seen, s'.w), s'.h.confirmed, s'.workers[r].st)
  {
    var s' := Apply(cfg, s, step);
    if step.Call? && step.r == r {
      CallRemembered(cfg, seen, s.w, s.h.confirmed, s.workers[r].st, step.fate);
    } else if s'.workers[r] == s.workers[r] {
      PlaceGrows(cfg, seen, Remember(seen, s'.w), s.h.confirmed, s'.h.confirmed, s.workers[r].st);
    }
  }

  lemma {:induction false} RunRemembered(cfg: Config, start: Sys, s: Sys, steps: seq<Step>, r: nat, seen: World)
    returns (seen': World)
    requires Valid(cfg, s, steps) && Backed(start, s, seen)
    requires r in s.workers && Place(cfg, seen, s.h.confirmed, s.workers[r].st)
    ensures var s' := Run(cfg, s, steps);
            Backed(start, s', seen') && r in s'.workers && Place(cfg, seen', s'.h.confirmed, s'.workers[r].st)
    decreases |steps|
  {
    seen' := seen;
    if |steps| > 0 {
      var s1 := Apply(cfg, s, steps[0]);
      StepBacked(cfg, start, s, steps[0], seen);
      StepRemembered(cfg, s, steps[0], r, seen);
      seen' := RunRemembered(cfg, start, s1, steps[1..], r, Remember(seen, s1.w));
    }
  }

  predicate Succeeds(s: Sys, r: nat) { r in s.workers && s.workers[r].st.Stop? && s.workers[r].st.outcome.Succeeded? }

  /** Success is complete but for what was deleted meanwhile. From any cluster and with any other passes under way, take
      the moment when a pass begins and any continuation whatever: if the pass reports success, every mandatory object
      of its namespace, the Knative trio included when it is switched on, is in place or has been deleted since that
      moment; and so are both indices at the Elasticsearch it was told of. */
  lemma {:induction false} SuccessUnlessDeleted(cfg: Config, s: Sys, steps: seq<Step>, r: nat)
    requires r in s.workers && s.workers[r].st.Fetch? && Valid(cfg, s, steps)
    ensures var s' := Run(cfg, s, steps);
            Succeeds(s', r) ==>
              var ns, es := s'.workers[r].st.id.ns, s'.workers[r].st.memo.es;
              && (forall a :: Mandatory(cfg, a) ==>
                   Key(a, ns) in s'.w.objects || s'.h.deletes[Key(a, ns)] > s.h.deletes[Key(a, ns)])
              && es.Some?
              && (forall t: Topic ::
                   (es.value, t) in s'.w.indices || s'.h.dropped[(es.value, t)] > s.h.dropped[(es.value, t)])
  {
    var seen := RunRemembered(cfg, s, s, steps, r, s.w);
    var s' := Run(cfg, s, steps);
    if Succeeds(s', r) {
      assert Point(s'.workers[r].st) == 0;
      forall t: Topic ensures (s'.workers[r].st.memo.es.value, t) in seen.indices {
        assert t == Raw || t == Risk;
      }
    }
  }

  lemma {:induction false} GentleDeletesNothing(cfg: Config, s: Sys, steps: seq<Step>)
    requires Valid(cfg, s, steps) && Gentle(cfg, s, steps)
    ensures Run(cfg, s, steps).h.deletes == s.h.deletes && Run(cfg, s, steps).h.dropped == s.h.dropped
    decreases |steps|
  {
    if |steps| > 0 {
      var s1 := Apply(cfg, s, steps[0]);
      if steps[0].Call? {
        CallCreatesAtMostOne(cfg, s, steps[0].r, steps[0].fate);
      } else if steps[0].Environment? {
        assert s.w.objects.Keys - s1.w.objects.Keys == {} && s.w.indices - s1.w.indices == {};
      }
      GentleDeletesNothing(cfg, s1, steps[1..]);
    }
  }

  /** Success is complete: if nothing at all is deleted meanwhile, everything is in place. */
  lemma {:induction false} SuccessIsComplete(cfg: Config, s: Sys, steps: seq<Step>, r: nat)
    requires r in s.workers && s.workers[r].st.Fetch? && Valid(cfg, s, steps) && Gentle(cfg, s, steps)
    ensures var s' := Run(cfg, s, steps);
            Succeeds(s', r) ==>
              && (forall a :: Mandatory(cfg, a) ==> Key(a, s'.workers[r].st.id.ns) in s'.w.objects)
              && BothIndices(s'.w, s'.workers[r].st.memo)
  {
    SuccessUnlessDeleted(cfg, s, steps, r);
    GentleDeletesNothing(cfg, s, steps);
  }

  ghost predicate IndicesSomewhere(w: World) {
    exists es: string :: (es, Raw) in w.indices && (es, Risk) in w.indices
  }

  /** A present object has all mandatory objects of earlier stages beside it, what must be read back before it has been,
      and from the task on the indices are there. */
  ghost predicate Prefix(cfg: Config, s: Sys) {
    forall b, ns :: Key(b, ns) in s.w.objects ==> Rests(cfg, s, b, ns)
  }

  ghost predicate Rests(cfg: Config, s: Sys, b: Slot, ns: string) {
    && PresentAbove(cfg, s.w, ns, Weight(b) + 2)
    && ConfirmedAbove(s.h.confirmed, ns, Weight(b) + 1)
    && (Weight(b) <= 120 ==> IndicesSomewhere(s.w))
  }

  lemma {:induction false} RunKeepsPrefix(cfg: Config, s: Sys, steps: seq<Step>)
    requires Valid(cfg, s, steps) && Gentle(cfg, s, steps) && AllPlaced(cfg, s) && Prefix(cfg, s)
    ensures Prefix(cfg, Run(cfg, s, steps))
    decreases |steps|
  {
    if |steps| > 0 {
      StepPlaced(cfg, s, steps[0]);
      StepKeepsPrefix(cfg, s, steps[0]);
      RunKeepsPrefix(cfg, Apply(cfg, s, steps[0]), steps[1..]);
    }
  }

  lemma CreatesAreMakes(cfg: Config, st: Worker)
    requires !st.Stop? && WellPlaced(cfg, st) && Request(cfg, st).Create?
    ensures st.At? && (st.pc.Make? || st.pc.AiCreate?) && Request(cfg, st).key == Key(st.pc.slot, st.cr.id.ns)
  {
  }

  lemma MakePrepared(cfg: Config, w: World, ready: set<Key>, st: Worker)
    requires Place(cfg, w, ready, st) && st.At? && (st.pc.Make? || st.pc.AiCreate?)
    ensures PresentAbove(cfg, w, st.cr.id.ns, Weight(st.pc.slot) + 2)
    ensures ConfirmedAbove(ready, st.cr.id.ns, Weight(st.pc.slot) + 1)
    ensures Weight(st.pc.slot) <= 120 ==> IndicesSomewhere(w)
  {
  }

  lemma StillRests(cfg: Config, s: Sys, s': Sys, b: Slot, ns: string)
    requires Rests(cfg, s, b, ns)
    requires s.w.objects.Keys <= s'.w.objects.Keys && s.w.indices <= s'.w.indices && s.h.confirmed <= s'.h.confirmed
    ensures Rests(cfg, s', b, ns)
  {
  }

  lemma StepKeepsPrefix(cfg: Config, s: Sys, step: Step)
    requires Enabled(s, step) && GentleStep(s, step) && AllPlaced(cfg, s) && Prefix(cfg, s)
    ensures Prefix(cfg, Apply(cfg, s, step))
  {
    var s' := Apply(cfg, s, step);
    StepPlaced(cfg, s, step);
    if step.Call? {
      var st := s.workers[step.r].st;
      CallCreatesAtMostOne(cfg, s, step.r, step.fate);
      AttemptGrows(s.w, Request(cfg, st), step.fate);
      if Request(cfg, st).Create? {
        CreatesAreMakes(cfg, st);
        MakePrepared(cfg, s.w, s.h.confirmed, st);
      }
    }
    forall b, ns | Key(b, ns) in s'.w.objects ensures Rests(cfg, s', b, ns) {
      assert Rests(cfg, s, b, ns);
      StillRests(cfg, s, s', b, ns);
    }
  }

  /** The order in which the mandatory objects must come into being. */
  const STAGES := [Cartridge, AutomationBase, CartridgeRequirements, KafkaTopic(Raw), KafkaTopic(Risk), EventProcessor,
    EventProcessingTask, KafkaSource, InMemoryChannel, Subscription, Deployment(Producer), Service(Producer),
    Route(Producer), Deployment(Server), Service(Server), Route(Server)]

  /** The stages as a prefix. From a pristine cluster and with nothing deleted, under every interleaving, fault and
      Ready flip: when an object is there, all mandatory objects before it in the order are; the three gates before it
      have been read back as Ready, and the two topics before it have been read back; and from the task on both indices
      exist at some Elasticsearch. */
  lemma {:induction false} StagePrefix(cfg: Config, s: Sys, steps: seq<Step>, i: nat, j: nat, ns: string)
    requires Pristine(s) && Valid(cfg, s, steps) && Gentle(cfg, s, steps)
    requires i < j < |STAGES| && Key(STAGES[j], ns) in Run(cfg, s, steps).w.objects
    requires STAGES[i] in {KafkaSource, InMemoryChannel, Subscription} ==> KnativeOn(cfg)
    ensures Key(STAGES[i], ns) in Run(cfg, s, steps).w.objects
    ensures i < 5 ==> Key(STAGES[i], ns) in Run(cfg, s, steps).h.confirmed
    ensures j >= 6 ==> exists es: string ::
              (es, Raw) in Run(cfg, s, steps).w.indices && (es, Risk) in Run(cfg, s, steps).w.indices
  {
    RunKeepsPrefix(cfg, s, steps);
    InOrder(i, j);
    assert Rests(cfg, Run(cfg, s, steps), STAGES[j], ns);
  }

  /** Everything in the order is mandatory, the Knative trio only when it is switched on; the AI objects never are. */
  lemma MandatoryIs(cfg: Config, i: nat)
    requires i < |STAGES|
    ensures Mandatory(cfg, STAGES[i])
            <==> (STAGES[i] in {KafkaSource, InMemoryChannel, Subscription} ==> KnativeOn(cfg))
    ensures !Mandatory(cfg, AIRuntime) && !Mandatory(cfg, AIModel) && !Mandatory(cfg, AIDeployment)
  {
  }

  lemma InOrder(i: nat, j: nat)
    requires i < j < |STAGES|
    ensures Weight(STAGES[i]) >= Weight(STAGES[j]) + 10
    ensures i < 5 ==> ReadBack(STAGES[i])
    ensures j >= 6 ==> Weight(STAGES[j]) <= 120
    ensures !IsAi(STAGES[i]) && (IsKnative(STAGES[i]) <==> STAGES[i] in {KafkaSource, InMemoryChannel, Subscription})
  {
  }

  /** The AI objects come after the three gates. */
  lemma {:induction false} AiAfterGates(cfg: Config, s: Sys, steps: seq<Step>, i: nat, b: Slot, ns: string)
    requires Pristine(s) && Valid(cfg, s, steps) && Gentle(cfg, s, steps)
    requires i < 3 && b in {AIRuntime, AIModel, AIDeployment} && Key(b, ns) in Run(cfg, s, steps).w.objects
    ensures Key(STAGES[i], ns) in Run(cfg, s, steps).w.objects && Key(STAGES[i], ns) in Run(cfg, s, steps).h.confirmed
  {
    RunKeepsPrefix(cfg, s, steps);
    assert Rests(cfg, Run(cfg, s, steps), b, ns);
    assert Mandatory(cfg, STAGES[i]) && ReadBack(STAGES[i]) && Weight(STAGES[i]) >= 180;
  }

  // ---------- inside the AI stage ----------

  ghost predicate AiChain(w: World, ns: string) {
    && (Key(AIDeployment, ns) in w.objects ==> Key(AIModel, ns) in w.objects)
    && (Key(AIModel, ns) in w.objects ==> Key(AIRuntime, ns) in w.objects)
  }

  ghost predicate AiPlaced(w: World, st: Worker) {
    st.At? && st.pc.AiCreate? ==>
      match st.pc.slot
      case AIModel => Key(AIRuntime, st.cr.id.ns) in w.objects
      case AIDeployment => Key(AIRuntime, st.cr.id.ns) in w.objects && Key(AIModel, st.cr.id.ns) in w.objects
      case _ => true
  }

  ghost predicate AiOrdered(cfg: Config, s: Sys) {
    && (forall ns :: AiChain(s.w, ns))
    && (forall r :: r in s.workers ==> AiPlaced(s.w, s.workers[r].st) && WellPlaced(cfg, s.workers[r].st))
  }

  lemma AiCallPlaced(cfg: Config, w: World, st: Worker, fate: Fate)
    requires !st.Stop? && AiPlaced(w, st) && WellPlaced(cfg, st)
    ensures var (w', r) := Attempt(w, Request(cfg, st), fate); AiPlaced(w', Resume(cfg, st, r))
  {
    var (w', r) := Attempt(w, Request(cfg, st), fate);
    AttemptGrows(w, Request(cfg, st), fate);
    if st.At? && !InAi(st.pc) {
      assert !Resume(cfg, st, r).At? || !Resume(cfg, st, r).pc.AiCreate?;
    }
  }

  lemma StepKeepsAiOrder(cfg: Config, s: Sys, step: Step)
    requires Enabled(s, step) && GentleStep(s, step) && AiOrdered(cfg, s)
    ensures AiOrdered(cfg, Apply(cfg, s, step))
  {
    if step.Call? {
      var st := s.workers[step.r].st;
      CallCreatesAtMostOne(cfg, s, step.r, step.fate);
      AttemptGrows(s.w, Request(cfg, st), step.fate);
      AiCallPlaced(cfg, s.w, st, step.fate);
      ResumeDescends(cfg, st, Attempt(s.w, Request(cfg, st), step.fate).1);
      assert AiPlaced(s.w, st) && WellPlaced(cfg, st);
    }
    forall ns ensures AiChain(Apply(cfg, s, step).w, ns) {
      assert AiChain(s.w, ns);
    }
  }

  /** AIDeployment implies AIModel implies AIRuntime, in every run from a pristine cluster without deletions. */
  lemma {:induction false} AiStagePrefix(cfg: Config, s: Sys, steps: seq<Step>, ns: string)
    requires Valid(cfg, s, steps) && Gentle(cfg, s, steps) && (Pristine(s) || AiOrdered(cfg, s))
    ensures AiChain(Run(cfg, s, steps).w, ns)
    decreases |steps|
  {
    if |steps| > 0 {
      assert AiOrdered(cfg, s);
      StepKeepsAiOrder(cfg, s, steps[0]);
      AiStagePrefix(cfg, Apply(cfg, s, steps[0]), steps[1..], ns);
    }
  }
}

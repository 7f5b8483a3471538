/** Crash confluence: where the process died and which calls failed leaves no trace in what the passes made. */
module Confluence {
  import opened Store
  import opened Endpoints
  import opened Protocol
  import opened Stages
  import opened Passes
  import opened Convergence

  // ---------- the goal, from the starting cluster and the readings alone ----------

  predicate MinioReachable(w: World, ns: string) {
    (ns, MINIO_SECRET) in w.secrets && MinioEndpoint(w.secrets[(ns, MINIO_SECRET)]).Some?
  }

  /** The AI stage makes its trio iff the AIDeployment is missing at the start and both AI secrets are usable. */
  predicate AiWanted(w: World, ns: string) {
    Key(AIDeployment, ns) !in w.objects && MinioReachable(w, ns) && (ns, KF_SECRET) in w.secrets
  }

  predicate Wanted(cfg: Config, w: World, s: Slot, ns: string) {
    Mandatory(cfg, s) || (IsAi(s) && AiWanted(w, ns))
  }

  function GoalUrl(given: Readings, w: World, ns: string): string {
    var k := Key(AIDeployment, ns);
    if (k in w.objects || AiWanted(w, ns)) && SaysReady(given(k)) then given(k).endpoint else ""
  }

  function GoalReading(given: Readings, w: World, s: Slot, ns: string): Reading {
    var kafka := KafkaOf(given(Key(CartridgeRequirements, ns)));
    match s
    case KafkaSource => if kafka.Some? then Bootstrap(LastPlain(kafka.value)) else NoReading
    case Deployment(_) =>
      if kafka.Some? && FirstTls(kafka.value).Some? then Listener(FirstTls(kafka.value).value) else NoReading
    case EventProcessingTask => Predictor(GoalUrl(given, w, ns))
    case _ => NoReading
  }

  /** The object that belongs under a key at the end: the one that was there, or the one the goal asks for. */
  function GoalObject(cfg: Config, given: Readings, w: World, cr: CR, k: Key): Object {
    if k in w.objects then w.objects[k] else NewObject(cfg, cr, k.slot, GoalReading(given, w, k.slot, k.ns))
  }

  predicate InGoal(cfg: Config, w: World, cr: CR, k: Key) {
    k in w.objects || (k.ns == cr.id.ns && Wanted(cfg, w, k.slot, k.ns))
  }

  // ---------- what every run keeps ----------

  /** The inputs are those of the start, and so are the statuses that were there at the start. */
  ghost predicate SameInputs(given: Readings, w0: World, w: World) {
    && w.crs == w0.crs && w.secrets == w0.secrets
    && w0.objects.Keys <= w.objects.Keys
    && Settling(given, w)
    && (forall k :: k in w0.objects && k in w.objects ==> w.objects[k].status == given(k))
  }

  /** Nothing is there but what the goal asks for, as the goal asks for it. */
  ghost predicate WithinGoal(cfg: Config, given: Readings, w0: World, cr: CR, w: World) {
    forall k :: k in w.objects ==>
      && InGoal(cfg, w0, cr, k)
      && w.objects[k].spec == GoalObject(cfg, given, w0, cr, k).spec
      && w.objects[k].owner == GoalObject(cfg, given, w0, cr, k).owner
  }

  ghost predicate Faithful(cfg: Config, given: Readings, w0: World, cr: CR, w: World) {
    SameInputs(given, w0, w) && WithinGoal(cfg, given, w0, cr, w) && AiComplete(w0, w, cr.id.ns)
  }

  /** A new AIDeployment never stands alone. */
  ghost predicate AiComplete(w0: World, w: World, ns: string) {
    Key(AIDeployment, ns) in w.objects && Key(AIDeployment, ns) !in w0.objects ==>
      Key(AIModel, ns) in w.objects && Key(AIRuntime, ns) in w.objects
  }

  /** After the AI stage the AIDeployment is there, with its status, exactly if it ever will be. */
  ghost predicate AiDecided(given: Readings, w0: World, w: World, ns: string) {
    var k := Key(AIDeployment, ns);
    k in w0.objects || AiWanted(w0, ns) ==> k in w.objects && w.objects[k].status == given(k)
  }

  ghost predicate Following(given: Readings, w0: World, cr: CR, w: World, st: Worker) {
    match st
    case Fetch(id) => id == cr.id && id in w0.crs && w0.crs[id] == cr
    case Stop(id, out, _) => id == cr.id && (out.Succeeded? ==> AiDecided(given, w0, w, cr.id.ns))
    case At(c, pc, _) => c == cr && PcFollowing(given, w0, cr, w, pc)
  }

  ghost predicate PcFollowing(given: Readings, w0: World, cr: CR, w: World, pc: Pc) {
    var ns := cr.id.ns;
    && (Position(pc) < 170 ==> AiDecided(given, w0, w, ns))
    && match pc
       case Look(s, rd) => !s.EventProcessingTask? ==> rd == GoalReading(given, w0, s, ns)
       case Make(s, rd) => rd == GoalReading(given, w0, s, ns)
       case AiBucketQuery(_) => MinioReachable(w0, ns)
       case AiMakeBucket(m) => MinioReachable(w0, ns) && m !in w.buckets
       case AiUpload(m, _) => MinioReachable(w0, ns) && m in w.buckets
       case AiStatus => MinioReachable(w0, ns)
       case AiKfSecret => MinioReachable(w0, ns) && Key(AIDeployment, ns) !in w0.objects
       case AiCreate(s) =>
         && AiWanted(w0, ns)
         && (s.AIModel? || s.AIDeployment? ==> Key(AIRuntime, ns) in w.objects)
         && (s.AIDeployment? ==> Key(AIModel, ns) in w.objects)
       case _ => true
  }

  lemma SettleKeepsObjects(cfg: Config, given: Readings, chosen: Key -> bool, w0: World, cr: CR, w: World)
    requires Faithful(cfg, given, w0, cr, w)
    ensures Faithful(cfg, given, w0, cr, Settle(given, chosen, w))
  {
  }

  lemma SettleKeepsFaith(cfg: Config, given: Readings, chosen: Key -> bool, w0: World, cr: CR, w: World, st: Worker)
    requires Faithful(cfg, given, w0, cr, w) && Following(given, w0, cr, w, st)
    ensures var w' := Settle(given, chosen, w); Faithful(cfg, given, w0, cr, w') && Following(given, w0, cr, w', st)
  {
    SettleKeepsObjects(cfg, given, chosen, w0, cr, w);
    assert AiDecided(given, w0, w, cr.id.ns) ==> AiDecided(given, w0, Settle(given, chosen, w), cr.id.ns);
  }

  lemma CreationIsInGoal(cfg: Config, given: Readings, w0: World, cr: CR, w: World, w': World, s: Slot)
    requires WithinGoal(cfg, given, w0, cr, w) && w0.objects.Keys <= w.objects.Keys
    requires Key(s, cr.id.ns) !in w.objects && Wanted(cfg, w0, s, cr.id.ns)
    requires var o := NewObject(cfg, cr, s, GoalReading(given, w0, s, cr.id.ns));
             w' == w.(objects := w.objects[Key(s, cr.id.ns) := o])
    ensures WithinGoal(cfg, given, w0, cr, w')
  {
  }

  lemma CreationIsFaithful(cfg: Config, given: Readings, w0: World, cr: CR, w: World, w': World, s: Slot)
    requires Faithful(cfg, given, w0, cr, w)
    requires Key(s, cr.id.ns) !in w.objects && Wanted(cfg, w0, s, cr.id.ns)
    requires var o := NewObject(cfg, cr, s, GoalReading(given, w0, s, cr.id.ns));
             w' == w.(objects := w.objects[Key(s, cr.id.ns) := o])
    requires s.AIDeployment? ==> Key(AIModel, cr.id.ns) in w.objects && Key(AIRuntime, cr.id.ns) in w.objects
    ensures Faithful(cfg, given, w0, cr, w')
    ensures AiDecided(given, w0, w, cr.id.ns) ==> AiDecided(given, w0, w', cr.id.ns)
  {
    CreationIsInGoal(cfg, given, w0, cr, w, w', s);
  }

  lemma OnlyObjectsMatter(cfg: Config, given: Readings, w0: World, cr: CR, w: World, w': World)
    requires w'.objects == w.objects && w'.crs == w.crs && w'.secrets == w.secrets
    ensures Faithful(cfg, given, w0, cr, w) ==> Faithful(cfg, given, w0, cr, w')
    ensures AiDecided(given, w0, w, cr.id.ns) ==> AiDecided(given, w0, w', cr.id.ns)
  {
  }

  lemma EnsuredFollows(cfg: Config, given: Readings, w0: World, cr: CR, w: World, st: Worker, s: Slot)
    requires st.At? && st.cr == cr && Mandatory(cfg, s)
    requires Weight(s) < 170 ==> AiDecided(given, w0, w, cr.id.ns)
    ensures Following(given, w0, cr, w, Ensured(cfg, st, s))
  {
  }

  lemma LookFollows(cfg: Config, given: Readings, w0: World, cr: CR, w: World, st: Worker, r: Reply)
    requires st.At? && st.pc.Look? && WellPlaced(cfg, st) && Following(given, w0, cr, w, st)
    ensures Following(given, w0, cr, w, ResumeObject(cfg, st, r))
  {
    if r.Found? && !st.pc.slot.EventProcessingTask? { EnsuredFollows(cfg, given, w0, cr, w, st, st.pc.slot); }
  }

  lemma RereadFollows(cfg: Config, given: Readings, w0: World, cr: CR, w: World, st: Worker, r: Reply)
    requires st.At? && st.pc.Reread? && WellPlaced(cfg, st) && Following(given, w0, cr, w, st)
    ensures Following(given, w0, cr, w, ResumeObject(cfg, st, r))
  {
  }

  lemma MakeFollows(cfg: Config, given: Readings, w0: World, cr: CR, w: World, st: Worker, fate: Fate)
    requires st.At? && st.pc.Make? && WellPlaced(cfg, st) && Faithful(cfg, given, w0, cr, w)
    requires Following(given, w0, cr, w, st)
    ensures var (w', r) := Attempt(w, Request(cfg, st), fate);
            Faithful(cfg, given, w0, cr, w') && Following(given, w0, cr, w', ResumeObject(cfg, st, r))
  {
    var (w', r) := Attempt(w, Request(cfg, st), fate);
    var s := st.pc.slot;
    if !fate.Refused? && Key(s, cr.id.ns) !in w.objects {
      CreationIsFaithful(cfg, given, w0, cr, w, w', s);
    }
    if r.Done? { EnsuredFollows(cfg, given, w0, cr, w', st, s); }
  }

  lemma AiCreateIsFaithful(cfg: Config, given: Readings, w0: World, cr: CR, w: World, st: Worker)
    requires st.At? && st.pc.AiCreate? && WellPlaced(cfg, st) && Faithful(cfg, given, w0, cr, w)
    requires Following(given, w0, cr, w, st)
    ensures Faithful(cfg, given, w0, cr, Exec(w, Request(cfg, st)).0)
  {
    var s := st.pc.slot;
    if Key(s, cr.id.ns) !in w.objects {
      CreationIsFaithful(cfg, given, w0, cr, w, Exec(w, Request(cfg, st)).0, s);
    }
  }

  lemma AiCreateFollows(cfg: Config, given: Readings, w0: World, cr: CR, w: World, st: Worker)
    requires st.At? && st.pc.AiCreate? && WellPlaced(cfg, st) && Following(given, w0, cr, w, st)
    ensures var (w', r) := Exec(w, Request(cfg, st)); Following(given, w0, cr, w', ResumeAi(cfg, st, r))
  {
  }

  lemma AiStatusFollows(cfg: Config, given: Readings, w0: World, cr: CR, w: World, st: Worker)
    requires st.At? && st.pc.AiStatus? && SameInputs(given, w0, w) && Following(given, w0, cr, w, st)
    ensures Following(given, w0, cr, w, ResumeAi(cfg, st, Exec(w, Request(cfg, st)).1))
  {
  }

  lemma AiSecretsFollow(cfg: Config, given: Readings, w0: World, cr: CR, w: World, st: Worker)
    requires st.At? && (st.pc.AiSecret? || st.pc.AiKfSecret?)
    requires SameInputs(given, w0, w) && Following(given, w0, cr, w, st)
    ensures Following(given, w0, cr, w, ResumeAi(cfg, st, Exec(w, Request(cfg, st)).1))
  {
    // without a wanted AIDeployment there is nothing to decide
    assert !AiWanted(w0, cr.id.ns) ==> AiDecided(given, w0, w, cr.id.ns);
  }

  lemma AiBucketFollows(cfg: Config, given: Readings, w0: World, cr: CR, w: World, st: Worker)
    requires st.At? && (st.pc.AiBucketQuery? || st.pc.AiMakeBucket? || st.pc.AiUpload?)
    requires Following(given, w0, cr, w, st)
    ensures var (w', r) := Exec(w, Request(cfg, st));
            && w'.objects == w.objects && w'.crs == w.crs && w'.secrets == w.secrets
            && Following(given, w0, cr, w', ResumeAi(cfg, st, r))
  {
  }

  lemma EsNext(st: Worker, r: Reply)
    requires st.At? && InEs(st.pc)
    ensures var st' := ResumeEs(st, r);
            || (st'.Stop? && st'.outcome.Errored?)
            || (st'.At? && st'.cr == st.cr && (InEs(st'.pc) || st'.pc == Look(EventProcessingTask, NoReading)))
  {
  }

  /** The predictor URL read after the AI stage is the goal's. */
  lemma PredictReads(cfg: Config, given: Readings, w0: World, cr: CR, w: World)
    requires Faithful(cfg, given, w0, cr, w) && AiDecided(given, w0, w, cr.id.ns)
    ensures var k := Key(AIDeployment, cr.id.ns);
            (if k in w.objects then PredictorUrl(w.objects[k].status) else "") == GoalUrl(given, w0, cr.id.ns)
  {
    var k := Key(AIDeployment, cr.id.ns);
    assert k in w.objects ==> InGoal(cfg, w0, cr, k);
  }

  lemma PredictFollows(cfg: Config, given: Readings, w0: World, cr: CR, w: World, st: Worker)
    requires st.At? && st.pc.Predict? && Faithful(cfg, given, w0, cr, w) && Following(given, w0, cr, w, st)
    ensures Following(given, w0, cr, w, ResumeReading(cfg, st, Exec(w, Request(cfg, st)).1))
  {
    if st.pc.seen.SeenObject? {
      EnsuredFollows(cfg, given, w0, cr, w, st, EventProcessingTask);
    } else {
      PredictReads(cfg, given, w0, cr, w);
    }
  }

  /** A blank status announces no Kafka. */
  lemma KafkaReads(cfg: Config, given: Readings, w: World, st: Worker, fate: Fate)
    requires st.At? && st.pc.KafkaInfo? && Settling(given, w)
    ensures var r, k := Attempt(w, Request(cfg, st), fate).1, Key(CartridgeRequirements, st.cr.id.ns);
            r.Found? && KafkaOf(r.obj.status).Some? ==> r.obj.status == given(k)
  {
  }

  lemma KafkaFollows(cfg: Config, given: Readings, w0: World, cr: CR, w: World, st: Worker, r: Reply)
    requires st.At? && st.pc.KafkaInfo? && Following(given, w0, cr, w, st)
    requires r.Found? && KafkaOf(r.obj.status).Some? ==> r.obj.status == given(Key(CartridgeRequirements, cr.id.ns))
    ensures Following(given, w0, cr, w, ResumeReading(cfg, st, r))
  {
  }

  /** The calls whose failure the AI stage, or the question for the predictor URL, would swallow. */
  predicate AiSite(cfg: Config, n: nat) { n == 123 || 170 <= n <= 179 + |cfg.models| }

  /** Calls of the AI stage may be cut off by a crash, but none of them fails. */
  ghost predicate AiUndisturbed(cfg: Config, sc: Script) {
    forall n :: AiSite(cfg, n) && sc.events(n).Goes? ==> sc.events(n).fate.Fine?
  }

  lemma AiSites(cfg: Config, st: Worker)
    requires st.At? && WellPlaced(cfg, st)
    ensures InAi(st.pc) || st.pc.Predict? <==> AiSite(cfg, Site(cfg, st))
  {
  }

  lemma AiBucketCallFollows(cfg: Config, given: Readings, w0: World, cr: CR, w: World, st: Worker)
    requires st.At? && (st.pc.AiBucketQuery? || st.pc.AiMakeBucket? || st.pc.AiUpload?)
    requires Faithful(cfg, given, w0, cr, w) && Following(given, w0, cr, w, st)
    ensures var (w', r) := Exec(w, Request(cfg, st));
            Faithful(cfg, given, w0, cr, w') && Following(given, w0, cr, w', ResumeAi(cfg, st, r))
  {
    AiBucketFollows(cfg, given, w0, cr, w, st);
    OnlyObjectsMatter(cfg, given, w0, cr, w, Exec(w, Request(cfg, st)).0);
  }

  lemma AiReadKeeps(cfg: Config, w: World, st: Worker)
    requires st.At? && (st.pc.AiSecret? || st.pc.AiKfSecret? || st.pc.AiStatus?)
    ensures Exec(w, Request(cfg, st)).0 == w
  {
  }

  lemma AiCallFollows(cfg: Config, given: Readings, w0: World, cr: CR, w: World, st: Worker)
    requires st.At? && InAi(st.pc) && WellPlaced(cfg, st) && Faithful(cfg, given, w0, cr, w)
    requires Following(given, w0, cr, w, st)
    ensures var (w', r) := Exec(w, Request(cfg, st));
            Faithful(cfg, given, w0, cr, w') && Following(given, w0, cr, w', ResumeAi(cfg, st, r))
  {
    if st.pc.AiCreate? {
      AiCreateIsFaithful(cfg, given, w0, cr, w, st);
      AiCreateFollows(cfg, given, w0, cr, w, st);
    } else if st.pc.AiBucketQuery? || st.pc.AiMakeBucket? || st.pc.AiUpload? {
      AiBucketCallFollows(cfg, given, w0, cr, w, st);
    } else {
      AiReadKeeps(cfg, w, st);
      if st.pc.AiStatus? {
        AiStatusFollows(cfg, given, w0, cr, w, st);
      } else {
        AiSecretsFollow(cfg, given, w0, cr, w, st);
      }
    }
  }

  lemma EsFollows(given: Readings, w0: World, cr: CR, w: World, st: Worker, r: Reply)
    requires st.At? && InEs(st.pc) && st.cr == cr && AiDecided(given, w0, w, cr.id.ns)
    ensures Following(given, w0, cr, w, ResumeEs(st, r))
  {
    EsNext(st, r);
  }

  lemma EsCallFollows(cfg: Config, given: Readings, w0: World, cr: CR, w: World, st: Worker, fate: Fate)
    requires st.At? && InEs(st.pc) && Faithful(cfg, given, w0, cr, w) && Following(given, w0, cr, w, st)
    ensures var (w', r) := Attempt(w, Request(cfg, st), fate);
            Faithful(cfg, given, w0, cr, w') && Following(given, w0, cr, w', ResumeEs(st, r))
  {
    var (w', r) := Attempt(w, Request(cfg, st), fate);
    EsKeeps(cfg, w, st, fate);
    OnlyObjectsMatter(cfg, given, w0, cr, w, w');
    EsFollows(given, w0, cr, w', st, r);
  }

  lemma CallFollows(cfg: Config, given: Readings, w0: World, cr: CR, w: World, st: Worker, fate: Fate)
    requires !st.Stop? && WellPlaced(cfg, st) && Faithful(cfg, given, w0, cr, w) && Following(given, w0, cr, w, st)
    requires st.At? && (InAi(st.pc) || st.pc.Predict?) ==> fate.Fine?
    ensures var (w', r) := Attempt(w, Request(cfg, st), fate);
            Faithful(cfg, given, w0, cr, w') && Following(given, w0, cr, w', Resume(cfg, st, r))
  {
    if st.Fetch? {
      assert SameInputs(given, w0, w);
    } else if InAi(st.pc) {
      AiCallFollows(cfg, given, w0, cr, w, st);
    } else if InEs(st.pc) {
      EsCallFollows(cfg, given, w0, cr, w, st, fate);
    } else {
      ObjectCallFollows(cfg, given, w0, cr, w, st, fate);
    }
  }

  lemma ObjectCallFollows(cfg: Config, given: Readings, w0: World, cr: CR, w: World, st: Worker, fate: Fate)
    requires st.At? && !InAi(st.pc) && !InEs(st.pc)
    requires WellPlaced(cfg, st) && Faithful(cfg, given, w0, cr, w) && Following(given, w0, cr, w, st)
    requires st.pc.Predict? ==> fate.Fine?
    ensures var (w', r) := Attempt(w, Request(cfg, st), fate);
            Faithful(cfg, given, w0, cr, w') && Following(given, w0, cr, w', Resume(cfg, st, r))
  {
    var r := Attempt(w, Request(cfg, st), fate).1;
    if st.pc.Predict? { PredictFollows(cfg, given, w0, cr, w, st); }
    else if st.pc.KafkaInfo? { KafkaReads(cfg, given, w, st, fate); KafkaFollows(cfg, given, w0, cr, w, st, r); }
    else if st.pc.Look? { LookFollows(cfg, given, w0, cr, w, st, r); }
    else if st.pc.Make? { MakeFollows(cfg, given, w0, cr, w, st, fate); }
    else { RereadFollows(cfg, given, w0, cr, w, st, r); }
  }

  /** A call cut off by a crash is a call whose continuation is lost. */
  lemma MoveFollows(cfg: Config, given: Readings, sc: Script, w0: World, cr: CR, w: World, st: Worker)
    requires !st.Stop? && WellPlaced(cfg, st) && AiUndisturbed(cfg, sc)
    requires Faithful(cfg, given, w0, cr, w) && Following(given, w0, cr, w, st)
    ensures var (w', st') := Move(cfg, given, sc, w, st);
            Faithful(cfg, given, w0, cr, w') && Following(given, w0, cr, w', st')
  {
    var n := Site(cfg, st);
    var w1 := Before(cfg, given, sc, w, st);
    SettleKeepsFaith(cfg, given, (k: Key) => sc.settled(n, k), w0, cr, w, st);
    if st.At? { AiSites(cfg, st); }
    match sc.events(n) {
      case Goes(fate) => CallFollows(cfg, given, w0, cr, w1, st, fate);
      case DiesBefore =>
      case DiesAfter => CallFollows(cfg, given, w0, cr, w1, st, Fine);
    }
  }

  lemma {:induction false} PassFollows(cfg: Config, given: Readings, sc: Script, w0: World, cr: CR, w: World,
      ready: set<Key>, st: Worker)
    requires AiUndisturbed(cfg, sc) && Place(cfg, w, ready, st)
    requires Faithful(cfg, given, w0, cr, w) && Following(given, w0, cr, w, st)
    ensures var (w', st') := Pass(cfg, given, sc, w, st);
            && Faithful(cfg, given, w0, cr, w')
            && (st'.outcome.Succeeded? ==> AiDecided(given, w0, w', cr.id.ns) && PresentAbove(cfg, w', cr.id.ns, 0))
    decreases Site(cfg, st)
  {
    if !st.Stop? {
      MoveDescends(cfg, given, sc, w, st);
      MoveFollows(cfg, given, sc, w0, cr, w, st);
      var ready' := MovePlace(cfg, given, sc, w, ready, st);
      var (w', st') := Move(cfg, given, sc, w, st);
      PassFollows(cfg, given, sc, w0, cr, w', ready', st');
    }
  }

  // ---------- confluence ----------

  /** The world after all the passes. */
  function AfterAll(cfg: Config, given: Readings, id: CRName, w: World, scripts: seq<Script>): World
    decreases |scripts|
  {
    if |scripts| == 0 then w else AfterAll(cfg, given, id, FullPass(cfg, given, id, scripts[0], w).0, scripts[1..])
  }

  /** All the passes but the last may end in any way; the last one succeeds. */
  predicate EndsWell(cfg: Config, given: Readings, id: CRName, w: World, scripts: seq<Script>)
    decreases |scripts|
  {
    |scripts| > 0 &&
    var (w', st') := FullPass(cfg, given, id, scripts[0], w);
    if |scripts| == 1 then st'.outcome.Succeeded? else EndsWell(cfg, given, id, w', scripts[1..])
  }

  lemma {:induction false} RunsReachTheGoal(cfg: Config, given: Readings, w0: World, cr: CR, w: World,
      scripts: seq<Script>)
    requires cr.id in w0.crs && w0.crs[cr.id] == cr && Faithful(cfg, given, w0, cr, w)
    requires forall sc :: sc in scripts ==> AiUndisturbed(cfg, sc)
    requires EndsWell(cfg, given, cr.id, w, scripts)
    ensures var w' := AfterAll(cfg, given, cr.id, w, scripts);
            Faithful(cfg, given, w0, cr, w') && AiDecided(given, w0, w', cr.id.ns) && PresentAbove(cfg, w', cr.id.ns, 0)
    decreases |scripts|
  {
    var w1 := SettleAll(given, w);
    SettleKeepsFaith(cfg, given, (k: Key) => true, w0, cr, w, Fetch(cr.id));
    FreshPlace(cfg, w1, cr.id);
    assert scripts[0] in scripts;
    PassFollows(cfg, given, scripts[0], w0, cr, w1, {}, Fetch(cr.id));
    var w2 := FullPass(cfg, given, cr.id, scripts[0], w).0;
    if |scripts| > 1 {
      assert forall sc :: sc in scripts[1..] ==> sc in scripts;
      RunsReachTheGoal(cfg, given, w0, cr, w2, scripts[1..]);
    } else {
      assert AfterAll(cfg, given, cr.id, w2, scripts[1..]) == w2;
    }
  }

  lemma AiTrioPresent(w0: World, w: World, given: Readings, ns: string, s: Slot)
    requires AiDecided(given, w0, w, ns) && AiComplete(w0, w, ns) && IsAi(s) && AiWanted(w0, ns)
    ensures Key(s, ns) in w.objects
  {
  }

  /** It makes no difference whether the statuses have settled before the first pass begins or when it does. */
  lemma {:induction false} SettledStart(cfg: Config, given: Readings, id: CRName, w: World, scripts: seq<Script>)
    requires |scripts| > 0
    ensures AfterAll(cfg, given, id, SettleAll(given, w), scripts) == AfterAll(cfg, given, id, w, scripts)
    ensures EndsWell(cfg, given, id, SettleAll(given, w), scripts) == EndsWell(cfg, given, id, w, scripts)
  {
    assert SettleAll(given, SettleAll(given, w)).objects == SettleAll(given, w).objects;
  }

  lemma SameGoal(cfg: Config, given: Readings, w: World, cr: CR, k: Key)
    ensures var w1 := SettleAll(given, w);
            && (InGoal(cfg, w1, cr, k) <==> InGoal(cfg, w, cr, k))
            && GoalObject(cfg, given, w1, cr, k).spec == GoalObject(cfg, given, w, cr, k).spec
            && GoalObject(cfg, given, w1, cr, k).owner == GoalObject(cfg, given, w, cr, k).owner
  {
    assert SettleAll(given, w).objects.Keys == w.objects.Keys;
  }

  lemma StartIsFaithful(cfg: Config, given: Readings, cr: CR, w: World)
    ensures var w1 := SettleAll(given, w); Faithful(cfg, given, w1, cr, w1)
  {
  }

  /** The goal is reached exactly: when the passes have ended well, every key holds what the goal puts there, and
      there are no others. */
  lemma {:induction false} GoalIsReached(cfg: Config, given: Readings, cr: CR, w: World, scripts: seq<Script>, k: Key)
    requires cr.id in w.crs && w.crs[cr.id] == cr
    requires forall sc :: sc in scripts ==> AiUndisturbed(cfg, sc)
    requires EndsWell(cfg, given, cr.id, w, scripts)
    ensures var w' := AfterAll(cfg, given, cr.id, w, scripts);
            && (k in w'.objects <==> InGoal(cfg, w, cr, k))
            && (k in w'.objects ==> w'.objects[k].spec == GoalObject(cfg, given, w, cr, k).spec
                                    && w'.objects[k].owner == GoalObject(cfg, given, w, cr, k).owner)
  {
    var w1 := SettleAll(given, w);
    SettledStart(cfg, given, cr.id, w, scripts);
    SameGoal(cfg, given, w, cr, k);
    StartIsFaithful(cfg, given, cr, w);
    RunsReachTheGoal(cfg, given, w1, cr, w1, scripts);
    ReachedExactly(cfg, given, w1, cr, AfterAll(cfg, given, cr.id, w, scripts), k);
  }

  lemma ReachedExactly(cfg: Config, given: Readings, w: World, cr: CR, w': World, k: Key)
    requires Faithful(cfg, given, w, cr, w') && AiDecided(given, w, w', cr.id.ns) && PresentAbove(cfg, w', cr.id.ns, 0)
    ensures k in w'.objects <==> InGoal(cfg, w, cr, k)
    ensures k in w'.objects ==> w'.objects[k].spec == GoalObject(cfg, given, w, cr, k).spec
                                && w'.objects[k].owner == GoalObject(cfg, given, w, cr, k).owner
  {
    if k !in w.objects && InGoal(cfg, w, cr, k) {
      if IsAi(k.slot) { AiTrioPresent(w, w', given, k.ns, k.slot); } else { assert Key(k.slot, k.ns) in w'.objects; }
    }
  }

  /** Crash confluence. Fix the readings and start from any subset of the objects. Two sequences of passes, with
      different crashes and different failed calls outside the AI stage, each ending in a successful pass, leave the
      same objects with the same specs and owners. */
  lemma {:induction false} CrashConfluence(cfg: Config, given: Readings, cr: CR, w: World, scripts1: seq<Script>,
      scripts2: seq<Script>,
      k: Key)
    requires cr.id in w.crs && w.crs[cr.id] == cr
    requires forall sc :: sc in scripts1 + scripts2 ==> AiUndisturbed(cfg, sc)
    requires EndsWell(cfg, given, cr.id, w, scripts1) && EndsWell(cfg, given, cr.id, w, scripts2)
    ensures var w1, w2 := AfterAll(cfg, given, cr.id, w, scripts1), AfterAll(cfg, given, cr.id, w, scripts2);
            && (k in w1.objects <==> k in w2.objects)
            && (k in w1.objects ==>
                 w1.objects[k].spec == w2.objects[k].spec && w1.objects[k].owner == w2.objects[k].owner)
  {
    assert forall sc :: sc in scripts1 || sc in scripts2 ==> sc in scripts1 + scripts2;
    GoalIsReached(cfg, given, cr, w, scripts1, k);
    GoalIsReached(cfg, given, cr, w, scripts2, k);
  }
}

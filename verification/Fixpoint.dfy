/** What a clean success leaves behind is a fixed point of the pass, and the only kind there is. */
module Fixpoint {
  import opened Options
  import opened Store
  import opened Endpoints
  import opened Protocol
  import opened System
  import Safety
  import opened Stages
  import opened Passes
  import opened Convergence
  import opened Confluence

  function StatusAt(w: World, s: Slot, ns: string): Status {
    if Key(s, ns) in w.objects then w.objects[Key(s, ns)].status else EMPTY_STATUS
  }

  function MinioOf(w: World, ns: string): string
    requires MinioReachable(w, ns)
  {
    MinioEndpoint(w.secrets[(ns, MINIO_SECRET)]).value
  }

  predicate BucketThere(w: World, ns: string) { MinioReachable(w, ns) && MinioOf(w, ns) in w.buckets }

  predicate AiOpen(w: World, ns: string) {
    BucketThere(w, ns) && Key(AIDeployment, ns) in w.objects && DeploymentVerdict(StatusAt(w, AIDeployment, ns)).Clean?
  }

  /** Nothing is left to do for `id`. */
  ghost predicate Steady(cfg: Config, w: World, id: CRName) {
    var ns := id.ns;
    var info := StatusAt(w, CartridgeRequirements, ns);
    && id in w.crs && w.crs[id].id == id
    && PresentAbove(cfg, w, ns, 0)
    && (forall g :: IsGate(g) ==> IsReady(StatusAt(w, g, ns)))
    && AiOpen(w, ns)
    && EsReachable(info, w, ns)
    && (EsConnOf(info).value.endpoint, Raw) in w.indices && (EsConnOf(info).value.endpoint, Risk) in w.indices
    && KafkaAnnounced(info)
  }

  /** How many times a pass asks for something to be created or uploaded. */
  function Writes(cfg: Config, given: Readings, sc: Script, w: World, st: Worker): nat
    requires WellPlaced(cfg, st)
    decreases Site(cfg, st)
  {
    if st.Stop? then 0 else
    MoveDescends(cfg, given, sc, w, st);
    var (w', st') := Move(cfg, given, sc, w, st);
    var op := Request(cfg, st);
    (if op.Create? || op.MakeBucket? || op.PutObject? then 1 else 0) + Writes(cfg, given, sc, w', st')
  }

  // ---------- a steady world is a fixed point ----------

  ghost predicate Cruising(cfg: Config, w: World, id: CRName, st: Worker)
    requires Steady(cfg, w, id)
  {
    var es := EsConnOf(StatusAt(w, CartridgeRequirements, id.ns)).value;
    WellPlaced(cfg, st) &&
    match st
    case Fetch(i) => i == id
    case Stop(i, out, memo) => i == id && out.Succeeded? && memo == Memo(true, Some(es.endpoint))
    case At(cr, pc, memo) =>
      && cr == w.crs[id]
      && (Position(pc) < 170 ==> memo.aiClean)
      && (Position(pc) < 131 ==> memo.es == Some(es.endpoint))
      && !pc.Make? && !pc.AiMakeBucket? && !pc.AiUpload? && !pc.AiKfSecret? && !pc.AiCreate?
      && match pc
         case AiBucketQuery(m) => m == MinioOf(w, id.ns)
         case EsAuth(conn) => conn == es
         case EsCert(conn) => conn == es && es.certSecret != ""
         case EsPut(e, _) => e == es.endpoint
         case Predict(seen) => seen.SeenObject?
         case _ => true
  }

  lemma CruiseObjects(cfg: Config, w: World, id: CRName, st: Worker)
    requires Steady(cfg, w, id) && Cruising(cfg, w, id, st) && st.At? && (st.pc.Look? || st.pc.Reread?)
    ensures var (w', r) := Exec(w, Request(cfg, st)); w' == w && Cruising(cfg, w, id, ResumeObject(cfg, st, r))
  {
    assert Mandatory(cfg, st.pc.slot);
    ObjectDescends(cfg, st, Exec(w, Request(cfg, st)).1);
    match st.pc.slot { case KafkaTopic(_) => case Deployment(_) => case Service(_) => case Route(_) => case _ => }
  }

  lemma CruiseAi(cfg: Config, w: World, id: CRName, st: Worker)
    requires Steady(cfg, w, id) && Cruising(cfg, w, id, st) && st.At? && InAi(st.pc)
    ensures var (w', r) := Exec(w, Request(cfg, st)); w' == w && Cruising(cfg, w, id, ResumeAi(cfg, st, r))
  {
  }

  lemma CruiseEs(cfg: Config, w: World, id: CRName, st: Worker)
    requires Steady(cfg, w, id) && Cruising(cfg, w, id, st) && st.At? && InEs(st.pc)
    ensures var (w', r) := Exec(w, Request(cfg, st)); w' == w && Cruising(cfg, w, id, ResumeEs(st, r))
  {
    assert Mandatory(cfg, CartridgeRequirements);
    EsDescends(cfg, st, Exec(w, Request(cfg, st)).1);
  }

  lemma CruiseReading(cfg: Config, w: World, id: CRName, st: Worker)
    requires Steady(cfg, w, id) && Cruising(cfg, w, id, st) && st.At? && (st.pc.Predict? || st.pc.KafkaInfo?)
    ensures var (w', r) := Exec(w, Request(cfg, st)); w' == w && Cruising(cfg, w, id, ResumeReading(cfg, st, r))
  {
    assert Mandatory(cfg, CartridgeRequirements);
    ReadingDescends(cfg, st, Exec(w, Request(cfg, st)).1);
  }

  lemma NothingSettles(cfg: Config, given: Readings, w: World, st: Worker)
    ensures Before(cfg, given, QUIET, w, st) == w
  {
  }

  lemma CruiseCall(cfg: Config, given: Readings, w: World, id: CRName, st: Worker)
    requires Steady(cfg, w, id) && Cruising(cfg, w, id, st) && !st.Stop?
    ensures var (w', st') := Move(cfg, given, QUIET, w, st); w' == w && Cruising(cfg, w, id, st')
    ensures var op := Request(cfg, st); !op.Create? && !op.MakeBucket? && !op.PutObject?
  {
    NothingSettles(cfg, given, w, st);
    if st.At? {
      if InAi(st.pc) { CruiseAi(cfg, w, id, st); }
      else if InEs(st.pc) { CruiseEs(cfg, w, id, st); }
      else if st.pc.Predict? || st.pc.KafkaInfo? { CruiseReading(cfg, w, id, st); }
      else { CruiseObjects(cfg, w, id, st); }
    }
  }

  lemma {:induction false} SteadyPass(cfg: Config, given: Readings, w: World, id: CRName, st: Worker)
    requires Steady(cfg, w, id) && Cruising(cfg, w, id, st)
    ensures var (w', st') := Pass(cfg, given, QUIET, w, st);
            var es := EsConnOf(StatusAt(w, CartridgeRequirements, id.ns)).value.endpoint;
            w' == w && st' == Stop(id, Succeeded, Memo(true, Some(es)))
    ensures Writes(cfg, given, QUIET, w, st) == 0
    decreases Site(cfg, st)
  {
    if !st.Stop? {
      MoveDescends(cfg, given, QUIET, w, st);
      CruiseCall(cfg, given, w, id, st);
      SteadyPass(cfg, given, w, id, Move(cfg, given, QUIET, w, st).1);
    }
  }

  // ---------- a clean success leaves a steady world ----------

  ghost predicate GateOpen(given: Readings, w: World, ns: string, g: Slot) {
    var k := Key(g, ns);
    k in w.objects && w.objects[k].status == given(k) && IsReady(given(k))
  }

  ghost predicate AiClosedCleanly(given: Readings, w: World, ns: string) {
    var k := Key(AIDeployment, ns);
    BucketThere(w, ns) && k in w.objects && w.objects[k].status == given(k) && DeploymentVerdict(given(k)).Clean?
  }

  /** What a pass has found out by the time it reaches position `p`. */
  ghost predicate Learned(given: Readings, w: World, ns: string, p: nat, memo: Memo) {
    var info := given(Key(CartridgeRequirements, ns));
    && Settling(given, w)
    && (forall g :: IsGate(g) && Weight(g) >= p ==> GateOpen(given, w, ns, g))
    && (p < 170 && memo.aiClean ==> AiClosedCleanly(given, w, ns))
    && (p < 131 ==> EsReachable(info, w, ns) && memo.es == Some(EsConnOf(info).value.endpoint))
    && (p < 85 ==> KafkaAnnounced(info))
  }

  predicate PcLearned(given: Readings, w: World, ns: string, pc: Pc) {
    var info := given(Key(CartridgeRequirements, ns));
    match pc
    case AiBucketQuery(m) => MinioReachable(w, ns) && m == MinioOf(w, ns)
    case AiMakeBucket(m) => MinioReachable(w, ns) && m == MinioOf(w, ns)
    case AiUpload(m, _) => BucketThere(w, ns) && m == MinioOf(w, ns)
    case AiStatus => BucketThere(w, ns)
    case EsAuth(conn) => EsConnOf(info) == Some(conn)
    case EsCert(conn) => EsConnOf(info) == Some(conn) && HoldsLogin(w, ns, conn.authSecret)
    case EsPut(es, _) => EsReachable(info, w, ns) && es == EsConnOf(info).value.endpoint
    case _ => true
  }

  ghost predicate Knows(given: Readings, w: World, st: Worker) {
    && Learned(given, w, IdOf(st).ns, Point(st), if st.Fetch? then BLANK else st.memo)
    && (st.At? ==> PcLearned(given, w, st.cr.id.ns, st.pc))
  }

  /** Objects and buckets only ever come; statuses, once in store, stay. */
  ghost predicate Grown(given: Readings, w: World, w': World) {
    && w'.secrets == w.secrets && w.buckets.Keys <= w'.buckets.Keys && Settling(given, w')
    && (forall k :: k in w.objects ==>
         k in w'.objects && (w.objects[k].status == given(k) ==> w'.objects[k].status == given(k)))
  }

  lemma KnowledgeLasts(given: Readings, w: World, w': World, st: Worker)
    requires Knows(given, w, st) && Grown(given, w, w')
    ensures Knows(given, w', st)
  {
    var ns := IdOf(st).ns;
    forall g | GateOpen(given, w, ns, g) ensures GateOpen(given, w', ns, g) { }
  }

  lemma CreateIsGrowth(given: Readings, w: World, k: Key, o: Object)
    requires Settling(given, w) && k !in w.objects && o.status == EMPTY_STATUS
    ensures Grown(given, w, w.(objects := w.objects[k := o]))
  {
  }

  lemma SameIsGrowth(given: Readings, w: World, w': World)
    requires Settling(given, w) && w'.objects == w.objects && w'.secrets == w.secrets
    requires w.buckets.Keys <= w'.buckets.Keys
    ensures Grown(given, w, w')
  {
  }

  lemma OtherOpsKeepObjects(w: World, op: Op, fate: Fate)
    requires !op.Create?
    ensures var w' := Attempt(w, op, fate).0;
            w'.objects == w.objects && w'.secrets == w.secrets && w.buckets.Keys <= w'.buckets.Keys
  {
  }

  lemma OpIsGrowth(given: Readings, w: World, op: Op, fate: Fate)
    requires Settling(given, w) && (op.Create? ==> op.obj.status == EMPTY_STATUS)
    ensures Grown(given, w, Attempt(w, op, fate).0)
  {
    var w' := Attempt(w, op, fate).0;
    if op.Create? && op.key !in w.objects && !fate.Refused? {
      CreateIsGrowth(given, w, op.key, op.obj);
    } else {
      if !op.Create? { OtherOpsKeepObjects(w, op, fate); }
      SameIsGrowth(given, w, w');
    }
  }

  lemma NewObjectsAreBlank(cfg: Config, st: Worker)
    requires !st.Stop?
    ensures Request(cfg, st).Create? ==> Request(cfg, st).obj.status == EMPTY_STATUS
  {
  }

  lemma AttemptIsGrowth(cfg: Config, given: Readings, w: World, st: Worker, fate: Fate)
    requires !st.Stop? && Settling(given, w)
    ensures Grown(given, w, Attempt(w, Request(cfg, st), fate).0)
  {
    NewObjectsAreBlank(cfg, st);
    OpIsGrowth(given, w, Request(cfg, st), fate);
  }

  lemma SettleIsGrowth(given: Readings, chosen: Key -> bool, w: World)
    requires Settling(given, w)
    ensures Grown(given, w, Settle(given, chosen, w))
  {
  }

  /** Moving on without passing a gate, the AI stage, the index stage or the Kafka stage teaches nothing new. */
  lemma LearnsNothing(given: Readings, w: World, ns: string, p: nat, p': nat, memo: Memo)
    requires Learned(given, w, ns, p, memo)
    requires forall g :: IsGate(g) && Weight(g) >= p' ==> Weight(g) >= p
    requires (p' < 170 ==> p < 170) && (p' < 131 ==> p < 131) && (p' < 85 ==> p < 85)
    ensures Learned(given, w, ns, p', memo)
  {
  }

  lemma StoppedKnows(given: Readings, w: World, st: Worker)
    requires st.Stop? && !st.outcome.Succeeded? && Settling(given, w)
    ensures Knows(given, w, st)
  {
  }

  lemma NextPoint(cfg: Config, s: Slot)
    requires Mandatory(cfg, s)
    ensures var p, p' := Weight(s) + 2, if AfterEnsured(cfg, s).Some? then Position(AfterEnsured(cfg, s).value) else 0;
            && (p' < 170 ==> p < 170) && (p' < 131 ==> p < 131) && (p' < 85 ==> p < 85)
            && (forall g :: IsGate(g) && Weight(g) >= p' ==> Weight(g) >= p)
  {
  }

  lemma EnsuredKnows(cfg: Config, given: Readings, w: World, st: Worker, s: Slot)
    requires st.At? && Mandatory(cfg, s) && Learned(given, w, st.cr.id.ns, Weight(s) + 2, st.memo)
    ensures Knows(given, w, Ensured(cfg, st, s))
  {
    NextPoint(cfg, s);
    LearnsNothing(given, w, st.cr.id.ns, Weight(s) + 2, Point(Ensured(cfg, st, s)), st.memo);
  }

  lemma LookKnows(cfg: Config, given: Readings, w: World, st: Worker, r: Reply)
    requires st.At? && st.pc.Look? && WellPlaced(cfg, st) && Knows(given, w, st)
    ensures Knows(given, w, ResumeObject(cfg, st, r))
  {
    var s := st.pc.slot;
    LearnsNothing(given, w, st.cr.id.ns, Weight(s) + 4, Weight(s) + 2, st.memo);
    if s.EventProcessingTask? {
      LearnsNothing(given, w, st.cr.id.ns, 124, 123, st.memo);
    } else if r.Found? {
      EnsuredKnows(cfg, given, w, st, s);
    } else if !r.NotFound? {
      StoppedKnows(given, w, ResumeObject(cfg, st, r));
    }
  }

  lemma MakeKnows(cfg: Config, given: Readings, w: World, st: Worker, r: Reply)
    requires st.At? && st.pc.Make? && WellPlaced(cfg, st) && Knows(given, w, st)
    ensures Knows(given, w, ResumeObject(cfg, st, r))
  {
    if r.Done? {
      EnsuredKnows(cfg, given, w, st, st.pc.slot);
    } else {
      StoppedKnows(given, w, ResumeObject(cfg, st, r));
    }
  }

  /** A status that says Ready is not blank, so it is the one in store. */
  lemma RereadKnows(cfg: Config, given: Readings, w: World, st: Worker, fate: Fate)
    requires st.At? && st.pc.Reread? && WellPlaced(cfg, st) && Knows(given, w, st)
    ensures Knows(given, w, ResumeObject(cfg, st, Attempt(w, Request(cfg, st), fate).1))
  {
  }

  lemma LeavesAi(given: Readings, w: World, st: Worker, clean: bool)
    requires st.At? && InAi(st.pc) && 170 <= Position(st.pc) <= 179 && Knows(given, w, st)
    requires clean ==> AiClosedCleanly(given, w, st.cr.id.ns)
    ensures Knows(given, w, LeaveAi(st, clean))
  {
  }

  lemma AiStatusKnows(cfg: Config, given: Readings, w: World, st: Worker, fate: Fate)
    requires st.At? && st.pc.AiStatus? && Knows(given, w, st)
    ensures Knows(given, w, ResumeAi(cfg, st, Attempt(w, Request(cfg, st), fate).1))
  {
    var r := Attempt(w, Request(cfg, st), fate).1;
    var st' := ResumeAi(cfg, st, r);
    if st'.Stop? {
      StoppedKnows(given, w, st');
    } else if st'.pc.Look? {
      LeavesAi(given, w, st, st'.memo.aiClean);
    } else {
      LearnsNothing(given, w, st.cr.id.ns, 175, 174, st.memo);
    }
  }

  lemma AiNext(cfg: Config, w: World, st: Worker, fate: Fate)
    requires st.At? && InAi(st.pc) && !st.pc.AiStatus? && WellPlaced(cfg, st)
    requires PcLearned((k: Key) => EMPTY_STATUS, w, st.cr.id.ns, st.pc)
    ensures var (w', r) := Attempt(w, Request(cfg, st), fate); var st' := ResumeAi(cfg, st, r);
            || (st'.Stop? && !st'.outcome.Succeeded?)
            || st' == LeaveAi(st, false)
            || (st'.At? && st' == st.(pc := st'.pc) && InAi(st'.pc) && Position(st'.pc) >= 170
                && PcLearned((k: Key) => EMPTY_STATUS, w', st.cr.id.ns, st'.pc))
  {
  }

  lemma AiMovesOn(given: Readings, w: World, st: Worker, st': Worker)
    requires st.At? && InAi(st.pc) && 170 <= Position(st.pc) <= 179 && Knows(given, w, st)
    requires || (st'.Stop? && !st'.outcome.Succeeded?)
             || st' == LeaveAi(st, false)
             || (st'.At? && st' == st.(pc := st'.pc) && InAi(st'.pc) && Position(st'.pc) >= 170
                 && PcLearned(given, w, st.cr.id.ns, st'.pc))
    ensures Knows(given, w, st')
  {
    if st'.Stop? {
      StoppedKnows(given, w, st');
    } else if st'.pc.Look? {
      LeavesAi(given, w, st, false);
    } else {
      LearnsNothing(given, w, st.cr.id.ns, Position(st.pc), Position(st'.pc), st.memo);
    }
  }

  lemma AiKnows(cfg: Config, given: Readings, w: World, st: Worker, fate: Fate)
    requires st.At? && InAi(st.pc) && WellPlaced(cfg, st) && Knows(given, w, st)
    ensures var (w', r) := Attempt(w, Request(cfg, st), fate); Knows(given, w', ResumeAi(cfg, st, r))
  {
    if st.pc.AiStatus? {
      AiStatusKnows(cfg, given, w, st, fate);
    } else {
      var (w', r) := Attempt(w, Request(cfg, st), fate);
      AttemptIsGrowth(cfg, given, w, st, fate);
      KnowledgeLasts(given, w, w', st);
      AiNext(cfg, w, st, fate);
      AiMovesOn(given, w', st, ResumeAi(cfg, st, r));
    }
  }

  lemma EsNextKnows(given: Readings, w: World, st: Worker, fate: Fate, cfg: Config)
    requires st.At? && InEs(st.pc) && Knows(given, w, st)
    ensures var (w', r) := Attempt(w, Request(cfg, st), fate); var st' := ResumeEs(st, r);
            st'.At? ==>
              && st'.cr == st.cr && PcLearned(given, w, st.cr.id.ns, st'.pc) && st'.memo.aiClean == st.memo.aiClean
              && (if st'.pc.Look?
                  then st.pc.EsPut? && st'.memo.es == Some(st.pc.es) && st'.pc.slot.EventProcessingTask?
                  else InEs(st'.pc) && st'.memo == st.memo)
  {
  }

  lemma EsKnows(cfg: Config, given: Readings, w: World, st: Worker, fate: Fate)
    requires st.At? && InEs(st.pc) && Knows(given, w, st)
    ensures var (w', r) := Attempt(w, Request(cfg, st), fate); Knows(given, w', ResumeEs(st, r))
  {
    var (w', r) := Attempt(w, Request(cfg, st), fate);
    AttemptIsGrowth(cfg, given, w, st, fate);
    EsNextKnows(given, w, st, fate, cfg);
    var st' := ResumeEs(st, r);
    if st'.At? {
      LearnsNothing(given, w, st.cr.id.ns, Position(st.pc), 131, st.memo);
      assert Knows(given, w, st');
      KnowledgeLasts(given, w, w', st');
    } else {
      StoppedKnows(given, w', st');
    }
  }

  lemma ReadingKnows(cfg: Config, given: Readings, w: World, st: Worker, fate: Fate)
    requires st.At? && (st.pc.Predict? || st.pc.KafkaInfo?) && Knows(given, w, st)
    ensures Knows(given, w, ResumeReading(cfg, st, Attempt(w, Request(cfg, st), fate).1))
  {
    var st' := ResumeReading(cfg, st, Attempt(w, Request(cfg, st), fate).1);
    var ns := st.cr.id.ns;
    if st'.Stop? {
      StoppedKnows(given, w, st');
    } else if st.pc.Predict? {
      LearnsNothing(given, w, ns, 123, 122, st.memo);
      if st.pc.seen.SeenObject? { EnsuredKnows(cfg, given, w, st, EventProcessingTask); }
    } else {
      assert GateOpen(given, w, ns, CartridgeRequirements);
    }
  }

  lemma CallKnows(cfg: Config, given: Readings, w: World, st: Worker, fate: Fate)
    requires !st.Stop? && WellPlaced(cfg, st) && Knows(given, w, st)
    ensures var (w', r) := Attempt(w, Request(cfg, st), fate); Knows(given, w', Resume(cfg, st, r))
  {
    var (w', r) := Attempt(w, Request(cfg, st), fate);
    if st.Fetch? {
    } else if InAi(st.pc) {
      AiKnows(cfg, given, w, st, fate);
    } else if InEs(st.pc) {
      EsKnows(cfg, given, w, st, fate);
    } else if st.pc.Predict? || st.pc.KafkaInfo? {
      ReadingKnows(cfg, given, w, st, fate);
    } else {
      AttemptIsGrowth(cfg, given, w, st, fate);
      KnowledgeLasts(given, w, w', st);
      if st.pc.Look? { LookKnows(cfg, given, w', st, r); }
      else if st.pc.Make? { MakeKnows(cfg, given, w', st, r); }
      else { RereadKnows(cfg, given, w, st, fate); }
    }
  }

  lemma MoveKnows(cfg: Config, given: Readings, sc: Script, w: World, st: Worker)
    requires !st.Stop? && WellPlaced(cfg, st) && Knows(given, w, st)
    ensures var (w', st') := Move(cfg, given, sc, w, st); Knows(given, w', st')
  {
    var n := Site(cfg, st);
    var w1 := Before(cfg, given, sc, w, st);
    SettleIsGrowth(given, (k: Key) => sc.settled(n, k), w);
    KnowledgeLasts(given, w, w1, st);
    match sc.events(n) {
      case Goes(fate) => CallKnows(cfg, given, w1, st, fate);
      case DiesBefore => StoppedKnows(given, w1, Dead(st));
      case DiesAfter =>
        AttemptIsGrowth(cfg, given, w1, st, Fine);
        StoppedKnows(given, Exec(w1, Request(cfg, st)).0, Dead(st));
    }
  }

  lemma {:induction false} PassKnows(cfg: Config, given: Readings, sc: Script, w: World, ready: set<Key>, st: Worker)
    requires Place(cfg, w, ready, st) && Knows(given, w, st) && KeyedCrs(w)
    ensures var (w', st') := Pass(cfg, given, sc, w, st);
            Knows(given, w', st') && IdOf(st') == IdOf(st)
            && (st'.outcome.Succeeded? ==> PresentAbove(cfg, w', IdOf(st).ns, 0) && BothIndices(w', st'.memo))
    decreases Site(cfg, st)
  {
    if !st.Stop? {
      MoveDescends(cfg, given, sc, w, st);
      MoveKnows(cfg, given, sc, w, st);
      var ready' := MovePlace(cfg, given, sc, w, ready, st);
      MoveKeepsId(cfg, given, sc, w, st);
      var (w', st') := Move(cfg, given, sc, w, st);
      PassKnows(cfg, given, sc, w', ready', st');
    }
  }

  lemma MoveKeepsId(cfg: Config, given: Readings, sc: Script, w: World, st: Worker)
    requires !st.Stop? && KeyedCrs(w)
    ensures var (w', st') := Move(cfg, given, sc, w, st); IdOf(st') == IdOf(st) && KeyedCrs(w')
  {
    var w1, op := Before(cfg, given, sc, w, st), Request(cfg, st);
    if sc.events(Site(cfg, st)).Goes? {
      var fate := sc.events(Site(cfg, st)).fate;
      Safety.AttemptKeepsInputs(w1, op, fate);
      Safety.ResumeKeepsId(cfg, st, Attempt(w1, op, fate).1);
    } else {
      Safety.AttemptKeepsInputs(w1, op, Fine);
    }
  }

  /** A pass that succeeds with a clean AI stage, whatever failed on the way, leaves a steady world. */
  lemma {:induction false} CleanSuccessIsSteady(cfg: Config, given: Readings, sc: Script, w: World, id: CRName)
    requires id in w.crs && KeyedCrs(w) && Settled(given, w)
    requires var st' := Pass(cfg, given, sc, w, Fetch(id)).1; st'.outcome.Succeeded? && st'.memo.aiClean
    ensures Steady(cfg, Pass(cfg, given, sc, w, Fetch(id)).0, id)
  {
    var (w', st') := Pass(cfg, given, sc, w, Fetch(id));
    FreshPlace(cfg, w, id);
    assert Knows(given, w, Fetch(id));
    PassKnows(cfg, given, sc, w, {}, Fetch(id));
    PassTakesNothing(cfg, given, sc, w, Fetch(id));
    forall g | IsGate(g) ensures IsReady(StatusAt(w', g, id.ns)) {
      assert GateOpen(given, w', id.ns, g);
    }
    assert GateOpen(given, w', id.ns, CartridgeRequirements);
    assert Learned(given, w', id.ns, 0, st'.memo);
  }

  /** The fixed points. A pass in which nothing fails and nothing settles leaves the world as it is and succeeds with a
      clean AI stage iff the world is steady; it then asks for no creation and no upload. */
  lemma {:induction false} FixedExactlyWhenSteady(cfg: Config, given: Readings, w: World, id: CRName)
    requires KeyedCrs(w) && id in w.crs && Settled(given, w)
    ensures var (w', st') := Pass(cfg, given, QUIET, w, Fetch(id));
            w' == w && st'.outcome.Succeeded? && st'.memo.aiClean <==> Steady(cfg, w, id)
    ensures Steady(cfg, w, id) ==> Writes(cfg, given, QUIET, w, Fetch(id)) == 0
  {
    var (w', st') := Pass(cfg, given, QUIET, w, Fetch(id));
    if w' == w && st'.outcome.Succeeded? && st'.memo.aiClean { CleanSuccessIsSteady(cfg, given, QUIET, w, id); }
    if Steady(cfg, w, id) { SteadyPass(cfg, given, w, id, Fetch(id)); }
  }

  /** A second pass has nothing to do. After a pass that succeeded with a clean AI stage, another one in the unchanged
      environment asks for no creation, changes nothing and succeeds again. */
  lemma {:induction false} SecondPassIsIdle(cfg: Config, given: Readings, sc: Script, w: World, id: CRName)
    requires id in w.crs && KeyedCrs(w) && Settled(given, w)
    requires var st' := Pass(cfg, given, sc, w, Fetch(id)).1; st'.outcome.Succeeded? && st'.memo.aiClean
    ensures var w1 := Pass(cfg, given, sc, w, Fetch(id)).0;
            && Pass(cfg, given, QUIET, w1, Fetch(id)).0 == w1
            && Pass(cfg, given, QUIET, w1, Fetch(id)).1.outcome.Succeeded?
            && Writes(cfg, given, QUIET, w1, Fetch(id)) == 0
  {
    CleanSuccessIsSteady(cfg, given, sc, w, id);
    SteadyPass(cfg, given, Pass(cfg, given, sc, w, Fetch(id)).0, id, Fetch(id));
  }
}

/** The AI stage does not interfere: what it finds, and how its calls go, shows in the rest of the pass only as the
    predictor URL of the EventProcessingTask. */
module Noninterference {
  import opened Store
  import opened Endpoints
  import opened Protocol
  import opened Passes
  import opened Confluence
  import Safety

  predicate AiSecretName(name: string) { name == MINIO_SECRET || name == KF_SECRET }

  /** Two tasks that differ at most in the predictor URL they were built with. */
  ghost predicate Twins(cfg: Config, cr: CR, o1: Object, o2: Object) {
    && o1.owner == o2.owner && o1.status == o2.status
    && (o1.spec == o2.spec
        || exists u1, u2 :: o1.spec == cfg.blueprint(cr, EventProcessingTask, Predictor(u1))
                            && o2.spec == cfg.blueprint(cr, EventProcessingTask, Predictor(u2)))
  }

  ghost predicate SameObject(cfg: Config, cr: CR, w1: World, w2: World, k: Key) {
    && (k in w1.objects <==> k in w2.objects)
    && (k in w1.objects ==>
         if k.slot.EventProcessingTask? then Twins(cfg, cr, w1.objects[k], w2.objects[k])
           else w1.objects[k] == w2.objects[k])
  }

  /** Two worlds that agree outside the AI objects, the AI secrets and the buckets, up to twin tasks. */
  ghost predicate Alike(cfg: Config, cr: CR, w1: World, w2: World) {
    && w1.crs == w2.crs && w1.indices == w2.indices
    && (forall ns, name :: !AiSecretName(name) ==>
         ((ns, name) in w1.secrets <==> (ns, name) in w2.secrets)
         && ((ns, name) in w1.secrets ==> w1.secrets[(ns, name)] == w2.secrets[(ns, name)]))
    && (forall k: Key :: !IsAi(k.slot) ==> SameObject(cfg, cr, w1, w2, k))
  }

  /** Elasticsearch keeps its secrets under names of their own. */
  predicate Apart(conn: EsConn) { !AiSecretName(conn.authSecret) && !AiSecretName(conn.certSecret) }

  predicate EsApart(w: World, ns: string) {
    var k := Key(CartridgeRequirements, ns);
    k in w.objects && EsConnOf(w.objects[k].status).Some? ==> Apart(EsConnOf(w.objects[k].status).value)
  }

  /** Two passes at the same point, up to what the AI stage left in them. */
  ghost predicate InStep(st1: Worker, st2: Worker) {
    match st1
    case Fetch(id) => st2 == Fetch(id)
    case Stop(id, out, memo) => st2.Stop? && st2.id == id && st2.outcome == out
    case At(cr, pc, memo) => st2.At? && st2.cr == cr && SamePc(pc, st2.pc)
  }

  ghost predicate SamePc(pc1: Pc, pc2: Pc) {
    if pc1.Make? && pc1.slot.EventProcessingTask?
    then pc2.Make? && pc2.slot.EventProcessingTask? && pc1.reading.Predictor? && pc2.reading.Predictor?
    else pc1 == pc2 && (pc1.EsAuth? || pc1.EsCert? ==> Apart(pc1.conn))
  }

  /** The custom resource a pass works for, once it has one; before that, the one it will find. */
  ghost predicate WorksFor(cr: CR, w: World, st: Worker) {
    match st
    case Fetch(id) => id in w.crs ==> w.crs[id] == cr
    case At(c, _, _) => c == cr
    case Stop(_, _, _) => true
  }

  /** Calls outside the AI stage meet the same events in both passes; the question for the predictor URL may fail in
      one and not in the other, as long as neither process dies there alone. */
  ghost predicate SameEvents(cfg: Config, sc1: Script, sc2: Script) {
    && (forall n :: !AiSite(cfg, n) ==> sc1.events(n) == sc2.events(n))
    && (sc1.events(123).Goes? <==> sc2.events(123).Goes?)
  }

  /** The call site at which the AI stage begins, and the sites of that stage. */
  function AiFirst(cfg: Config): nat { 179 + |cfg.models| }
  predicate AiStageSite(cfg: Config, n: nat) { 170 <= n <= AiFirst(cfg) }

  /** What arrives for a non-AI object while a pass is in its AI stage has arrived when the stage begins; nothing in the
      stage could tell the difference. */
  ghost predicate SettlesEarly(cfg: Config, sc: Script) {
    forall n, k: Key :: !IsAi(k.slot) && AiStageSite(cfg, n) && sc.settled(n, k) ==> sc.settled(AiFirst(cfg), k)
  }

  /** The other operators fill in the statuses of non-AI objects at the same moments in both passes. For AI objects they
      do as they like. */
  ghost predicate SameSettling(cfg: Config, sc1: Script, sc2: Script) {
    && SettlesEarly(cfg, sc1) && SettlesEarly(cfg, sc2)
    && forall n, k: Key ::
         !IsAi(k.slot) && (!AiStageSite(cfg, n) || n == AiFirst(cfg)) ==> sc1.settled(n, k) == sc2.settled(n, k)
  }

  /** The Elasticsearch that the other operators have in store keeps its secrets under names of its own, too. */
  predicate StoreApart(given: Readings, ns: string) {
    var st := given(Key(CartridgeRequirements, ns));
    EsConnOf(st).Some? ==> Apart(EsConnOf(st).value)
  }

  lemma SettleAlike(cfg: Config, given: Readings, cr: CR, chosen1: Key -> bool, chosen2: Key -> bool, w1: World,
      w2: World)
    requires Alike(cfg, cr, w1, w2) && forall k: Key :: !IsAi(k.slot) ==> chosen1(k) == chosen2(k)
    ensures Alike(cfg, cr, Settle(given, chosen1, w1), Settle(given, chosen2, w2))
  {
    var w1', w2' := Settle(given, chosen1, w1), Settle(given, chosen2, w2);
    forall k: Key | !IsAi(k.slot) ensures SameObject(cfg, cr, w1', w2', k) {
      assert SameObject(cfg, cr, w1, w2, k);
    }
  }

  lemma SettleApart(given: Readings, chosen: Key -> bool, w: World, ns: string)
    requires EsApart(w, ns) && StoreApart(given, ns)
    ensures EsApart(Settle(given, chosen, w), ns)
  {
  }

  /** Just before a call outside the AI stage, or its first one, the two worlds are still alike. */
  lemma BeforeAlike(cfg: Config, given: Readings, sc1: Script, sc2: Script, cr: CR, w1: World, w2: World, st1: Worker,
      st2: Worker)
    requires Alike(cfg, cr, w1, w2) && EsApart(w1, cr.id.ns) && StoreApart(given, cr.id.ns)
    requires SameSettling(cfg, sc1, sc2)
    requires var n := Site(cfg, st1); n == Site(cfg, st2) && (!AiStageSite(cfg, n) || n == AiFirst(cfg))
    ensures Alike(cfg, cr, Before(cfg, given, sc1, w1, st1), Before(cfg, given, sc2, w2, st2))
    ensures EsApart(Before(cfg, given, sc1, w1, st1), cr.id.ns) && Before(cfg, given, sc1, w1, st1).crs == w1.crs
  {
    var n := Site(cfg, st1);
    SettleAlike(cfg, given, cr, (k: Key) => sc1.settled(n, k), (k: Key) => sc2.settled(n, k), w1, w2);
    SettleApart(given, (k: Key) => sc1.settled(n, k), w1, cr.id.ns);
  }

  // ---------- one call in step ----------

  lemma LockLook(cfg: Config, cr: CR, w1: World, w2: World, st1: Worker, st2: Worker, fate: Fate)
    requires st1.At? && st1.cr == cr && st1.pc.Look? && WellPlaced(cfg, st1) && InStep(st1, st2)
    requires Alike(cfg, cr, w1, w2)
    ensures var r1, r2 := Attempt(w1, Request(cfg, st1), fate).1, Attempt(w2, Request(cfg, st2), fate).1;
            InStep(ResumeObject(cfg, st1, r1), ResumeObject(cfg, st2, r2))
  {
  }

  lemma LockReread(cfg: Config, cr: CR, w1: World, w2: World, st1: Worker, st2: Worker, fate: Fate)
    requires st1.At? && st1.cr == cr && st1.pc.Reread? && WellPlaced(cfg, st1) && InStep(st1, st2)
    requires Alike(cfg, cr, w1, w2)
    ensures var r1, r2 := Attempt(w1, Request(cfg, st1), fate).1, Attempt(w2, Request(cfg, st2), fate).1;
            InStep(ResumeObject(cfg, st1, r1), ResumeObject(cfg, st2, r2))
  {
  }

  lemma BothCreate(cfg: Config, cr: CR, w1: World, w2: World, k: Key, o1: Object, o2: Object)
    requires Alike(cfg, cr, w1, w2) && !IsAi(k.slot) && k !in w1.objects
    requires if k.slot.EventProcessingTask? then Twins(cfg, cr, o1, o2) else o1 == o2
    ensures Alike(cfg, cr, w1.(objects := w1.objects[k := o1]), w2.(objects := w2.objects[k := o2]))
  {
  }

  lemma LockCreate(cfg: Config, cr: CR, w1: World, w2: World, k: Key, o1: Object, o2: Object, fate: Fate)
    requires Alike(cfg, cr, w1, w2) && !IsAi(k.slot)
    requires if k.slot.EventProcessingTask? then Twins(cfg, cr, o1, o2) else o1 == o2
    ensures var (w1', r1), (w2', r2) := Attempt(w1, Create(k, o1), fate), Attempt(w2, Create(k, o2), fate);
            r1 == r2 && Alike(cfg, cr, w1', w2')
  {
    assert SameObject(cfg, cr, w1, w2, k);
    if k !in w1.objects { BothCreate(cfg, cr, w1, w2, k, o1, o2); }
  }

  lemma LockIndex(cfg: Config, cr: CR, w1: World, w2: World, es: string, t: Topic, fate: Fate)
    requires Alike(cfg, cr, w1, w2)
    ensures var (w1', r1), (w2', r2) := Attempt(w1, PutIndex(es, t), fate), Attempt(w2, PutIndex(es, t), fate);
            r1 == r2 && Alike(cfg, cr, w1', w2')
  {
    var w1' := Attempt(w1, PutIndex(es, t), fate).0;
    var w2' := Attempt(w2, PutIndex(es, t), fate).0;
    forall q: Key | !IsAi(q.slot) ensures SameObject(cfg, cr, w1', w2', q) {
      assert SameObject(cfg, cr, w1, w2, q);
    }
  }

  lemma LockMake(cfg: Config, cr: CR, w1: World, w2: World, st1: Worker, st2: Worker, fate: Fate)
    requires st1.At? && st1.cr == cr && st1.pc.Make? && WellPlaced(cfg, st1) && InStep(st1, st2)
    requires Alike(cfg, cr, w1, w2)
    ensures var (w1', r1), (w2', r2) := Attempt(w1, Request(cfg, st1), fate), Attempt(w2, Request(cfg, st2), fate);
            Alike(cfg, cr, w1', w2') && InStep(ResumeObject(cfg, st1, r1), ResumeObject(cfg, st2, r2))
  {
    var s := st1.pc.slot;
    var o1, o2 := NewObject(cfg, cr, s, st1.pc.reading), NewObject(cfg, cr, s, st2.pc.reading);
    LockCreate(cfg, cr, w1, w2, Key(s, cr.id.ns), o1, o2, fate);
  }

  /** The reads of the index stage come out the same in both worlds. */
  lemma LockEsRead(cfg: Config, cr: CR, w1: World, w2: World, st1: Worker, fate: Fate)
    requires st1.At? && st1.cr == cr && InEs(st1.pc) && !st1.pc.EsPut? && SamePc(st1.pc, st1.pc)
    requires Alike(cfg, cr, w1, w2)
    ensures Attempt(w1, Request(cfg, st1), fate).0 == w1 && Attempt(w2, Request(cfg, st1), fate).0 == w2
    ensures Attempt(w1, Request(cfg, st1), fate).1 == Attempt(w2, Request(cfg, st1), fate).1
  {
    assert SameObject(cfg, cr, w1, w2, Key(CartridgeRequirements, cr.id.ns));
  }

  lemma LockEs(cfg: Config, cr: CR, w1: World, w2: World, st1: Worker, st2: Worker, fate: Fate)
    requires st1.At? && st1.cr == cr && InEs(st1.pc) && InStep(st1, st2) && Alike(cfg, cr, w1, w2)
    requires EsApart(w1, cr.id.ns)
    ensures var (w1', r1), (w2', r2) := Attempt(w1, Request(cfg, st1), fate), Attempt(w2, Request(cfg, st2), fate);
            Alike(cfg, cr, w1', w2') && InStep(ResumeEs(st1, r1), ResumeEs(st2, r2))
  {
    if st1.pc.EsPut? {
      LockIndex(cfg, cr, w1, w2, st1.pc.es, st1.pc.topic, fate);
    } else {
      LockEsRead(cfg, cr, w1, w2, st1, fate);
    }
    EsInStep(cr, w1, st1, st2, Attempt(w1, Request(cfg, st1), fate).1);
  }

  lemma EsInStep(cr: CR, w1: World, st1: Worker, st2: Worker, r: Reply)
    requires st1.At? && st1.cr == cr && InEs(st1.pc) && InStep(st1, st2)
    requires st1.pc.EsInfo? && r.Found? && EsConnOf(r.obj.status).Some? ==> Apart(EsConnOf(r.obj.status).value)
    ensures InStep(ResumeEs(st1, r), ResumeEs(st2, r))
  {
  }

  lemma LockPredict(cfg: Config, cr: CR, w1: World, w2: World, st1: Worker, st2: Worker, fate1: Fate, fate2: Fate)
    requires st1.At? && st1.cr == cr && st1.pc.Predict? && InStep(st1, st2)
    ensures var r1, r2 := Attempt(w1, Request(cfg, st1), fate1).1, Attempt(w2, Request(cfg, st2), fate2).1;
            InStep(ResumeReading(cfg, st1, r1), ResumeReading(cfg, st2, r2))
  {
  }

  lemma LockKafka(cfg: Config, cr: CR, w1: World, w2: World, st1: Worker, st2: Worker, fate: Fate)
    requires st1.At? && st1.cr == cr && st1.pc.KafkaInfo? && InStep(st1, st2) && Alike(cfg, cr, w1, w2)
    ensures var r1, r2 := Attempt(w1, Request(cfg, st1), fate).1, Attempt(w2, Request(cfg, st2), fate).1;
            InStep(ResumeReading(cfg, st1, r1), ResumeReading(cfg, st2, r2))
  {
    assert SameObject(cfg, cr, w1, w2, Key(CartridgeRequirements, cr.id.ns));
  }

  // ---------- the AI stage on its own ----------

  /** What the AI stage leaves alone. */
  ghost predicate OffAiSame(w: World, w': World) {
    && w'.crs == w.crs && w'.indices == w.indices && w'.secrets == w.secrets
    && (forall k: Key :: !IsAi(k.slot) ==>
         (k in w'.objects <==> k in w.objects) && (k in w.objects ==> w'.objects[k] == w.objects[k]))
  }

  /** The pass stops inside the AI stage: it asks to be requeued there, or dies there. */
  predicate StopsInAi(cfg: Config, given: Readings, sc: Script, w: World, st: Worker)
    requires WellPlaced(cfg, st)
    decreases Site(cfg, st)
  {
    if st.Stop? then false else
    MoveDescends(cfg, given, sc, w, st);
    var (w', st') := Move(cfg, given, sc, w, st);
    (st.At? && InAi(st.pc) && st'.Stop?) || StopsInAi(cfg, given, sc, w', st')
  }

  /** The statuses that arrive for non-AI objects in the AI stage are there. */
  ghost predicate Arrived(cfg: Config, given: Readings, sc: Script, w: World) {
    forall k :: k in w.objects && !IsAi(k.slot) && sc.settled(AiFirst(cfg), k) ==> w.objects[k].status == given(k)
  }

  lemma AiSettleKeeps(cfg: Config, given: Readings, sc: Script, w: World, st: Worker)
    requires st.At? && InAi(st.pc) && WellPlaced(cfg, st) && SettlesEarly(cfg, sc) && Arrived(cfg, given, sc, w)
    ensures OffAiSame(w, Before(cfg, given, sc, w, st))
  {
    AiSites(cfg, st);
    assert AiStageSite(cfg, Site(cfg, st));
  }

  lemma AiCallKeeps(cfg: Config, w: World, st: Worker, fate: Fate)
    requires st.At? && InAi(st.pc) && WellPlaced(cfg, st)
    ensures var (w', r) := Attempt(w, Request(cfg, st), fate); var st' := ResumeAi(cfg, st, r);
            OffAiSame(w, w')
              && (st'.At? ==> st'.cr == st.cr && (InAi(st'.pc) || st'.pc == Look(KafkaTopic(Raw), NoReading)))
  {
  }

  lemma OffAiChain(cfg: Config, given: Readings, sc: Script, w: World, v: World, w': World)
    requires OffAiSame(w, v) && OffAiSame(v, w')
    ensures OffAiSame(w, w') && (Arrived(cfg, given, sc, w) ==> Arrived(cfg, given, sc, w'))
  {
  }

  lemma AiMoveKeeps(cfg: Config, given: Readings, sc: Script, w: World, st: Worker)
    requires st.At? && InAi(st.pc) && WellPlaced(cfg, st) && SettlesEarly(cfg, sc) && Arrived(cfg, given, sc, w)
    requires Move(cfg, given, sc, w, st).1.At?
    ensures var (w', st') := Move(cfg, given, sc, w, st);
            && OffAiSame(w, w') && Arrived(cfg, given, sc, w')
            && st'.cr == st.cr && (InAi(st'.pc) || st'.pc == Look(KafkaTopic(Raw), NoReading))
  {
    var v := Before(cfg, given, sc, w, st);
    AiSettleKeeps(cfg, given, sc, w, st);
    AiCallKeeps(cfg, v, st, sc.events(Site(cfg, st)).fate);
    OffAiChain(cfg, given, sc, w, v, Move(cfg, given, sc, w, st).0);
  }

  /** Run to the end of the AI stage. */
  lemma {:induction false} ThroughAi(cfg: Config, given: Readings, sc: Script, w: World, st: Worker)
      returns (w': World, st': Worker)
    requires st.At? && InAi(st.pc) && WellPlaced(cfg, st) && !StopsInAi(cfg, given, sc, w, st)
    requires SettlesEarly(cfg, sc) && Arrived(cfg, given, sc, w)
    ensures st'.At? && st'.cr == st.cr && st'.pc == Look(KafkaTopic(Raw), NoReading) && WellPlaced(cfg, st')
    ensures OffAiSame(w, w') && !StopsInAi(cfg, given, sc, w', st')
    ensures Pass(cfg, given, sc, w, st) == Pass(cfg, given, sc, w', st')
    decreases Site(cfg, st)
  {
    MoveDescends(cfg, given, sc, w, st);
    AiMoveKeeps(cfg, given, sc, w, st);
    var w1, st1 := Move(cfg, given, sc, w, st).0, Move(cfg, given, sc, w, st).1;
    if InAi(st1.pc) {
      w', st' := ThroughAi(cfg, given, sc, w1, st1);
      OffAiChain(cfg, given, sc, w, w1, w');
    } else {
      w', st' := w1, st1;
    }
  }

  /** Statuses that have settled for a call need not settle again. */
  lemma {:induction false} SettledForCall(cfg: Config, given: Readings, sc: Script, w: World, st: Worker)
    requires st.At? && st.pc.AiSecret? && WellPlaced(cfg, st)
    ensures var v := Before(cfg, given, sc, w, st);
            && Pass(cfg, given, sc, w, st) == Pass(cfg, given, sc, v, st)
               && StopsInAi(cfg, given, sc, w, st) == StopsInAi(cfg, given, sc, v, st)
            && Arrived(cfg, given, sc, v)
  {
    var v := Before(cfg, given, sc, w, st);
    assert Before(cfg, given, sc, v, st).objects == v.objects;
    assert Move(cfg, given, sc, w, st) == Move(cfg, given, sc, v, st);
  }

  lemma AlikeOffAi(cfg: Config, cr: CR, w1: World, w2: World, w1': World, w2': World)
    requires Alike(cfg, cr, w1, w2) && OffAiSame(w1, w1') && OffAiSame(w2, w2')
    ensures Alike(cfg, cr, w1', w2')
  {
  }

  // ---------- two passes in step ----------

  lemma CallKeepsApart(cfg: Config, w: World, st: Worker, fate: Fate, ns: string)
    requires !st.Stop? && EsApart(w, ns)
    ensures EsApart(Attempt(w, Request(cfg, st), fate).0, ns)
  {
  }

  /** One call outside the AI stage keeps two passes in step. */
  lemma CallInStep(cfg: Config, cr: CR, w1: World, w2: World, st1: Worker, st2: Worker, fate1: Fate, fate2: Fate)
    requires !st1.Stop? && !st2.Stop? && InStep(st1, st2) && Alike(cfg, cr, w1, w2) && EsApart(w1, cr.id.ns)
    requires WellPlaced(cfg, st1) && WorksFor(cr, w1, st1) && (st1.At? ==> !InAi(st1.pc))
    requires fate1 == fate2 || (st1.At? && st1.pc.Predict?)
    ensures var (w1', r1), (w2', r2) := Attempt(w1, Request(cfg, st1), fate1), Attempt(w2, Request(cfg, st2), fate2);
            Alike(cfg, cr, w1', w2') && InStep(Resume(cfg, st1, r1), Resume(cfg, st2, r2))
  {
    if st1.At? {
      if InEs(st1.pc) { LockEs(cfg, cr, w1, w2, st1, st2, fate1); }
      else if st1.pc.Predict? { LockPredict(cfg, cr, w1, w2, st1, st2, fate1, fate2); }
      else if st1.pc.KafkaInfo? { LockKafka(cfg, cr, w1, w2, st1, st2, fate1); }
      else if st1.pc.Look? { LockLook(cfg, cr, w1, w2, st1, st2, fate1); }
      else if st1.pc.Make? { LockMake(cfg, cr, w1, w2, st1, st2, fate1); }
      else { LockReread(cfg, cr, w1, w2, st1, st2, fate1); }
    }
  }

  lemma WorkGoesOn(cfg: Config, cr: CR, w: World, st: Worker, fate: Fate)
    requires !st.Stop? && WorksFor(cr, w, st)
    ensures var (w', r) := Attempt(w, Request(cfg, st), fate); WorksFor(cr, w', Resume(cfg, st, r))
  {
    if st.At? { Safety.ResumeKeepsCr(cfg, st, Attempt(w, Request(cfg, st), fate).1); }
  }

  lemma SameSites(cfg: Config, st1: Worker, st2: Worker)
    requires InStep(st1, st2) && !st1.Stop?
    ensures Site(cfg, st1) == Site(cfg, st2)
  {
  }

  /** One scripted call outside the AI stage keeps two passes in step. */
  lemma MoveInStep(cfg: Config, given: Readings, sc1: Script, sc2: Script, cr: CR, w1: World, w2: World, st1: Worker,
      st2: Worker)
    requires !st1.Stop? && InStep(st1, st2) && Alike(cfg, cr, w1, w2) && EsApart(w1, cr.id.ns)
    requires WellPlaced(cfg, st1) && WorksFor(cr, w1, st1) && (st1.At? ==> !InAi(st1.pc))
    requires SameSettling(cfg, sc1, sc2) && SameEvents(cfg, sc1, sc2) && StoreApart(given, cr.id.ns)
    ensures !st2.Stop?
    ensures var (w1', st1'), (w2', st2') := Move(cfg, given, sc1, w1, st1), Move(cfg, given, sc2, w2, st2);
            Alike(cfg, cr, w1', w2') && InStep(st1', st2') && EsApart(w1', cr.id.ns) && WorksFor(cr, w1', st1')
  {
    var n := Site(cfg, st1);
    SameSites(cfg, st1, st2);
    if st1.At? { AiSites(cfg, st1); }
    assert n == 123 <==> st1.At? && st1.pc.Predict? by { if st1.At? { Only123(cfg, st1); } }
    BeforeAlike(cfg, given, sc1, sc2, cr, w1, w2, st1, st2);
    var v1, v2 := Before(cfg, given, sc1, w1, st1), Before(cfg, given, sc2, w2, st2);
    var fate1 := if sc1.events(n).Goes? then sc1.events(n).fate else Fine;
    var fate2 := if sc2.events(n).Goes? then sc2.events(n).fate else Fine;
    CallInStep(cfg, cr, v1, v2, st1, st2, fate1, fate2);
    CallKeepsApart(cfg, v1, st1, fate1, cr.id.ns);
    WorkGoesOn(cfg, cr, v1, st1, fate1);
    if n == 123 && !sc1.events(n).Goes? { assert Request(cfg, st1).Get? && Request(cfg, st2).Get?; }
  }

  lemma Only123(cfg: Config, st: Worker)
    requires st.At? && WellPlaced(cfg, st)
    ensures Site(cfg, st) == 123 <==> st.pc.Predict?
  {
  }

  /** Two passes that enter the AI stage in step leave it in step. */
  lemma AiInStep(cfg: Config, given: Readings, sc1: Script, sc2: Script, cr: CR, w1: World, w2: World, st1: Worker,
      st2: Worker)
    returns (v1: World, t1: Worker, v2: World, t2: Worker)
    requires st1.At? && st1.pc.AiSecret? && InStep(st1, st2) && Alike(cfg, cr, w1, w2) && EsApart(w1, cr.id.ns)
    requires st1.cr == cr && SameSettling(cfg, sc1, sc2) && StoreApart(given, cr.id.ns)
    requires !StopsInAi(cfg, given, sc1, w1, st1) && !StopsInAi(cfg, given, sc2, w2, st2)
    ensures WellPlaced(cfg, t1) && WellPlaced(cfg, t2) && t1.At? && t1.cr == cr
            && t1.pc == Look(KafkaTopic(Raw), NoReading)
    ensures InStep(t1, t2) && Alike(cfg, cr, v1, v2) && EsApart(v1, cr.id.ns)
    ensures !StopsInAi(cfg, given, sc1, v1, t1) && !StopsInAi(cfg, given, sc2, v2, t2)
    ensures Pass(cfg, given, sc1, w1, st1) == Pass(cfg, given, sc1, v1, t1)
            && Pass(cfg, given, sc2, w2, st2) == Pass(cfg, given, sc2, v2, t2)
  {
    BeforeAlike(cfg, given, sc1, sc2, cr, w1, w2, st1, st2);
    SettledForCall(cfg, given, sc1, w1, st1);
    SettledForCall(cfg, given, sc2, w2, st2);
    var b1, b2 := Before(cfg, given, sc1, w1, st1), Before(cfg, given, sc2, w2, st2);
    v1, t1 := ThroughAi(cfg, given, sc1, b1, st1);
    v2, t2 := ThroughAi(cfg, given, sc2, b2, st2);
    AlikeOffAi(cfg, cr, b1, b2, v1, v2);
  }

  lemma {:induction false} Lockstep(cfg: Config, given: Readings, sc1: Script, sc2: Script, cr: CR, w1: World,
      w2: World, st1: Worker, st2: Worker)
    requires InStep(st1, st2) && Alike(cfg, cr, w1, w2) && EsApart(w1, cr.id.ns)
    requires WellPlaced(cfg, st1) && WellPlaced(cfg, st2) && WorksFor(cr, w1, st1)
    requires SameSettling(cfg, sc1, sc2) && SameEvents(cfg, sc1, sc2) && StoreApart(given, cr.id.ns)
    requires st1.At? && InAi(st1.pc) ==> st1.pc.AiSecret?
    requires !StopsInAi(cfg, given, sc1, w1, st1) && !StopsInAi(cfg, given, sc2, w2, st2)
    ensures var (e1, s1), (e2, s2) := Pass(cfg, given, sc1, w1, st1), Pass(cfg, given, sc2, w2, st2);
            Alike(cfg, cr, e1, e2) && s1.outcome == s2.outcome
    decreases Site(cfg, st1)
  {
    if st1.Stop? {
    } else if st1.At? && InAi(st1.pc) {
      var v1, t1, v2, t2 := AiInStep(cfg, given, sc1, sc2, cr, w1, w2, st1, st2);
      Lockstep(cfg, given, sc1, sc2, cr, v1, v2, t1, t2);
    } else {
      MoveInStep(cfg, given, sc1, sc2, cr, w1, w2, st1, st2);
      MoveDescends(cfg, given, sc1, w1, st1);
      MoveDescends(cfg, given, sc2, w2, st2);
      IntoAi(cfg, given, sc1, w1, st1);
      Lockstep(cfg, given, sc1, sc2, cr, Move(cfg, given, sc1, w1, st1).0, Move(cfg, given, sc2, w2, st2).0,
               Move(cfg, given, sc1, w1, st1).1, Move(cfg, given, sc2, w2, st2).1);
    }
  }

  lemma ResumeIntoAi(cfg: Config, st: Worker, r: Reply)
    requires !st.Stop? && WellPlaced(cfg, st) && (st.At? ==> !InAi(st.pc))
    ensures Resume(cfg, st, r).At? && InAi(Resume(cfg, st, r).pc) ==> Resume(cfg, st, r).pc.AiSecret?
  {
  }

  lemma IntoAi(cfg: Config, given: Readings, sc: Script, w: World, st: Worker)
    requires !st.Stop? && WellPlaced(cfg, st) && (st.At? ==> !InAi(st.pc))
    ensures var st' := Move(cfg, given, sc, w, st).1; st'.At? && InAi(st'.pc) ==> st'.pc.AiSecret?
  {
    if sc.events(Site(cfg, st)).Goes? {
      ResumeIntoAi(cfg, st, Attempt(Before(cfg, given, sc, w, st), Request(cfg, st), sc.events(Site(cfg, st)).fate).1);
    }
  }

  /** AI noninterference. Start two passes for the same custom resource in worlds that agree outside the AI objects,
      the AI secrets and the buckets; let calls of the AI stage fail as they like in either and the AI objects'
      statuses come as they like, and let the other calls meet the same events and the other statuses arrive at the
      same moments. If neither pass stops in the AI stage, both end the same way, with the same indices and the same
      non-AI objects, except that a new task may have been built with another predictor URL. */
  lemma {:induction false} AiNoninterference(cfg: Config, given: Readings, sc1: Script, sc2: Script, w1: World,
      w2: World, id: CRName,
      k: Key)
    requires id in w1.crs && Alike(cfg, w1.crs[id], w1, w2) && KeyedCrs(w1) && EsApart(w1, id.ns)
    requires StoreApart(given, id.ns)
    requires SameSettling(cfg, sc1, sc2) && SameEvents(cfg, sc1, sc2)
    requires !StopsInAi(cfg, given, sc1, w1, Fetch(id)) && !StopsInAi(cfg, given, sc2, w2, Fetch(id))
    requires !IsAi(k.slot)
    ensures var (e1, s1), (e2, s2) := Pass(cfg, given, sc1, w1, Fetch(id)), Pass(cfg, given, sc2, w2, Fetch(id));
            s1.outcome == s2.outcome && e1.indices == e2.indices && SameObject(cfg, w1.crs[id], e1, e2, k)
  {
    Lockstep(cfg, given, sc1, sc2, w1.crs[id], w1, w2, Fetch(id), Fetch(id));
  }
}

/** However many calls fail and however often the process dies, passes get through: every pass that meets no fault
    either succeeds or closes one of four gaps for good. */
module Convergence {
  import opened Options
  import opened Store
  import opened Endpoints
  import opened Protocol
  import opened System
  import Safety
  import opened Stages
  import opened Passes

  /** The objects on whose status a pass may wait. */
  predicate Awaited(s: Slot) { IsGate(s) || s.AIDeployment? }

  function Gap(w: World, s: Slot, ns: string): nat { if Key(s, ns) in w.objects then 0 else 1 }

  function Missing(w: World, ns: string): nat {
    Gap(w, Cartridge, ns) + Gap(w, AutomationBase, ns) + Gap(w, CartridgeRequirements, ns) + Gap(w, AIDeployment, ns)
  }

  /** A Ready condition that is there and True. */
  predicate SaysReady(st: Status) { st.ready.Some? && st.ready.value.status.ConditionTrue? }

  /** The readings let a pass through: gates Ready; on the AIDeployment a Ready condition that is neither Unknown nor
      Pending, be it True or False; Elasticsearch and Kafka announced, and the Elasticsearch secrets in place. Nothing
      is asked of the AI secrets or the bucket. */
  predicate Ripe(given: Readings, w: World, ns: string) {
    var ai := given(Key(AIDeployment, ns)).ready;
    && SaysReady(given(Key(Cartridge, ns))) && SaysReady(given(Key(AutomationBase, ns)))
    && SaysReady(given(Key(CartridgeRequirements, ns)))
    && ai.Some? && !ai.value.status.ConditionUnknown? && !EqualFold(ai.value.reason, "Pending")
    && EsReachable(given(Key(CartridgeRequirements, ns)), w, ns)
    && KafkaAnnounced(given(Key(CartridgeRequirements, ns)))
  }

  predicate HoldsLogin(w: World, ns: string, name: string) {
    (ns, name) in w.secrets && HasLogin(w.secrets[(ns, name)])
  }

  predicate HoldsCa(w: World, ns: string, name: string) {
    (ns, name) in w.secrets && HasCa(w.secrets[(ns, name)])
  }

  predicate EsReachable(st: Status, w: World, ns: string) {
    && EsConnOf(st).Some?
    && HoldsLogin(w, ns, EsConnOf(st).value.authSecret)
    && (EsConnOf(st).value.certSecret != "" ==> HoldsCa(w, ns, EsConnOf(st).value.certSecret))
  }

  predicate KafkaAnnounced(st: Status) {
    && KafkaOf(st).Some?
    && FirstTls(KafkaOf(st).value).Some? && Dereferenceable(FirstTls(KafkaOf(st).value).value)
  }

  /** Every status is the one in store or still blank. */
  ghost predicate Settling(given: Readings, w: World) {
    forall k :: k in w.objects ==> w.objects[k].status == given(k) || w.objects[k].status == EMPTY_STATUS
  }

  ghost predicate Settled(given: Readings, w: World) {
    forall k :: k in w.objects ==> w.objects[k].status == given(k)
  }

  ghost predicate AwaitedSettled(given: Readings, w: World, ns: string) {
    forall s :: Awaited(s) && Key(s, ns) in w.objects ==> w.objects[Key(s, ns)].status == given(Key(s, ns))
  }

  ghost predicate GapsWaiting(given: Readings, w: World, ns: string, m: nat) {
    Missing(w, ns) <= m && (AwaitedSettled(given, w, ns) || Missing(w, ns) < m)
  }

  /** A pass without faults is on its way to success, or has already closed one of the `m` gaps it started with. */
  ghost predicate OnTrack(given: Readings, w: World, st: Worker, m: nat) {
    var ns := IdOf(st).ns;
    && Settling(given, w) && Ripe(given, w, ns)
    && match st
       case Stop(_, out, _) => Missing(w, ns) <= m && (out.Succeeded? || (out.Requeued? && Missing(w, ns) < m))
       case Fetch(id) => GapsWaiting(given, w, ns, m) && id in w.crs && w.crs[id].id == id
       case At(cr, pc, _) =>
         && GapsWaiting(given, w, ns, m)
         && (Position(pc) <= 180 ==> RequirementsRead(given, w, ns))
         && PcOnTrack(given, w, ns, pc)
  }

  predicate RequirementsRead(given: Readings, w: World, ns: string) {
    var k := Key(CartridgeRequirements, ns);
    k in w.objects && w.objects[k].status == given(k)
  }

  predicate PcOnTrack(given: Readings, w: World, ns: string, pc: Pc) {
    match pc
    case Make(s, _) => Key(s, ns) !in w.objects
    case AiKfSecret => Key(AIDeployment, ns) !in w.objects
    case AiCreate(_) => Key(AIDeployment, ns) !in w.objects
    case EsAuth(conn) => EsConnOf(given(Key(CartridgeRequirements, ns))) == Some(conn)
    case EsCert(conn) => EsConnOf(given(Key(CartridgeRequirements, ns))) == Some(conn) && conn.certSecret != ""
    case Predict(seen) => !seen.SeenError? && (seen.SeenNothing? ==> Key(EventProcessingTask, ns) !in w.objects)
    case _ => true
  }

  lemma SettleKeepsTrack(given: Readings, chosen: Key -> bool, w: World, st: Worker, m: nat)
    requires OnTrack(given, w, st, m)
    ensures OnTrack(given, Settle(given, chosen, w), st, m)
  {
  }

  /** A creation can only close gaps. */
  lemma CreateClosesGap(given: Readings, w: World, w': World, s: Slot, ns: string, o: Object, m: nat)
    requires Key(s, ns) !in w.objects && w'.objects == w.objects[Key(s, ns) := o]
    requires GapsWaiting(given, w, ns, m)
    ensures GapsWaiting(given, w', ns, m)
    ensures Awaited(s) ==> Missing(w', ns) < m
  {
  }

  lemma CreateKeepsSettling(given: Readings, w: World, w': World, k: Key, o: Object)
    requires Settling(given, w) && k !in w.objects && w'.objects == w.objects[k := o] && o.status == EMPTY_STATUS
    requires w'.secrets == w.secrets
    ensures Settling(given, w')
    ensures Ripe(given, w, k.ns) ==> Ripe(given, w', k.ns)
    ensures RequirementsRead(given, w, k.ns) ==> RequirementsRead(given, w', k.ns)
  {
  }

  lemma EnsuredOnTrack(cfg: Config, given: Readings, w: World, st: Worker, s: Slot, m: nat)
    requires st.At? && !IsAi(s)
    requires Settling(given, w) && Ripe(given, w, st.cr.id.ns) && GapsWaiting(given, w, st.cr.id.ns, m)
    requires Weight(s) < 180 ==> RequirementsRead(given, w, st.cr.id.ns)
    ensures OnTrack(given, w, Ensured(cfg, st, s), m)
  {
  }

  lemma LookOnTrack(cfg: Config, given: Readings, w: World, st: Worker, m: nat)
    requires st.At? && st.pc.Look? && WellPlaced(cfg, st) && OnTrack(given, w, st, m)
    ensures OnTrack(given, w, ResumeObject(cfg, st, Exec(w, Request(cfg, st)).1), m)
  {
    var s := st.pc.slot;
    if Key(s, st.cr.id.ns) in w.objects && !s.EventProcessingTask? { EnsuredOnTrack(cfg, given, w, st, s, m); }
  }

  lemma MakeOnTrack(cfg: Config, given: Readings, w: World, st: Worker, m: nat)
    requires st.At? && st.pc.Make? && WellPlaced(cfg, st) && OnTrack(given, w, st, m)
    ensures var (w', r) := Exec(w, Request(cfg, st)); OnTrack(given, w', ResumeObject(cfg, st, r), m)
  {
    var (w', r) := Exec(w, Request(cfg, st));
    var k, o := Key(st.pc.slot, st.cr.id.ns), NewObject(cfg, st.cr, st.pc.slot, st.pc.reading);
    CreateClosesGap(given, w, w', st.pc.slot, k.ns, o, m);
    CreateKeepsSettling(given, w, w', k, o);
    EnsuredOnTrack(cfg, given, w', st, st.pc.slot, m);
  }

  lemma RereadOnTrack(cfg: Config, given: Readings, w: World, st: Worker, m: nat)
    requires st.At? && st.pc.Reread? && WellPlaced(cfg, st) && OnTrack(given, w, st, m)
    requires Key(st.pc.slot, st.cr.id.ns) in w.objects
    ensures OnTrack(given, w, ResumeObject(cfg, st, Exec(w, Request(cfg, st)).1), m)
  {
    var r := Exec(w, Request(cfg, st)).1;
    var s, ns := st.pc.slot, st.cr.id.ns;
    if IsGate(s) && !IsReady(r.obj.status) {
      assert w.objects[Key(s, ns)].status != given(Key(s, ns));
      assert Awaited(s);
    }
  }

  /** The AI stage never blocks: it moves on or, on creating the AIDeployment, closes a gap. */
  lemma AiOnTrack(cfg: Config, given: Readings, w: World, st: Worker, m: nat)
    requires st.At? && InAi(st.pc) && WellPlaced(cfg, st) && OnTrack(given, w, st, m)
    ensures var (w', r) := Exec(w, Request(cfg, st)); OnTrack(given, w', ResumeAi(cfg, st, r), m)
  {
    if st.pc.AiCreate? {
      AiCreateOnTrack(cfg, given, w, st, m);
    } else if st.pc.AiStatus? {
      AiStatusOnTrack(cfg, given, w, st, m);
    } else {
      AiStays(cfg, w, st);
      SameObjects(given, w, Exec(w, Request(cfg, st)).0, st.cr.id.ns, m);
    }
  }

  lemma AiStays(cfg: Config, w: World, st: Worker)
    requires st.At? && InAi(st.pc) && !st.pc.AiCreate? && !st.pc.AiStatus?
    ensures var (w', r) := Exec(w, Request(cfg, st)); var st' := ResumeAi(cfg, st, r);
            && w'.objects == w.objects && w'.secrets == w.secrets
            && st'.At? && st'.cr == st.cr && Position(st'.pc) <= 180
            && (st'.pc.Look? || (InAi(st'.pc) && !st'.pc.AiKfSecret? && (st'.pc.AiCreate? ==> st.pc.AiKfSecret?)))
  {
  }

  lemma AiStatusOnTrack(cfg: Config, given: Readings, w: World, st: Worker, m: nat)
    requires st.At? && st.pc.AiStatus? && OnTrack(given, w, st, m)
    ensures OnTrack(given, w, ResumeAi(cfg, st, Exec(w, Request(cfg, st)).1), m)
  {
  }

  lemma SameObjects(given: Readings, w: World, w': World, ns: string, m: nat)
    requires w'.objects == w.objects && w'.secrets == w.secrets
    ensures Settling(given, w) ==> Settling(given, w')
    ensures Ripe(given, w, ns) ==> Ripe(given, w', ns)
    ensures GapsWaiting(given, w, ns, m) ==> GapsWaiting(given, w', ns, m)
    ensures RequirementsRead(given, w, ns) ==> RequirementsRead(given, w', ns)
  {
  }

  lemma AiCreateNext(cfg: Config, w: World, st: Worker)
    requires st.At? && st.pc.AiCreate? && IsAi(st.pc.slot)
    ensures var (w', r) := Exec(w, Request(cfg, st));
            var st', k := ResumeAi(cfg, st, r), Key(st.pc.slot, st.cr.id.ns);
            && (r.Done? || r.AlreadyExists?) && (r.Done? <==> k !in w.objects)
            && w' == (if r.Done? then w.(objects := w.objects[k := NewObject(cfg, st.cr, st.pc.slot, NoReading)])
               else w)
            && st' == (if st.pc.slot.AIDeployment? then Finish(st, Requeued)
                       else st.(pc := AiCreate(if st.pc.slot.AIRuntime? then AIModel else AIDeployment)))
  {
  }

  lemma AiCreateOnTrack(cfg: Config, given: Readings, w: World, st: Worker, m: nat)
    requires st.At? && st.pc.AiCreate? && WellPlaced(cfg, st) && OnTrack(given, w, st, m)
    ensures var (w', r) := Exec(w, Request(cfg, st)); OnTrack(given, w', ResumeAi(cfg, st, r), m)
  {
    var (w', r) := Exec(w, Request(cfg, st));
    var k, o := Key(st.pc.slot, st.cr.id.ns), NewObject(cfg, st.cr, st.pc.slot, NoReading);
    AiCreateNext(cfg, w, st);
    if r.Done? {
      CreateClosesGap(given, w, w', st.pc.slot, k.ns, o, m);
      CreateKeepsSettling(given, w, w', k, o);
    }
  }

  /** With Elasticsearch announced and its secrets in place, the index stage moves on. */
  lemma EsProgress(cfg: Config, given: Readings, w: World, st: Worker)
    requires st.At? && InEs(st.pc) && PcOnTrack(given, w, st.cr.id.ns, st.pc) && RequirementsRead(given, w, st.cr.id.ns)
    requires EsReachable(given(Key(CartridgeRequirements, st.cr.id.ns)), w, st.cr.id.ns)
    ensures var st' := ResumeEs(st, Exec(w, Request(cfg, st)).1);
            && st'.At? && st'.cr == st.cr && Position(st'.pc) <= 180 && PcOnTrack(given, w, st.cr.id.ns, st'.pc)
            && (InEs(st'.pc) || st'.pc.Look?)
  {
  }

  lemma EsOnTrack(cfg: Config, given: Readings, w: World, st: Worker, m: nat)
    requires st.At? && InEs(st.pc) && OnTrack(given, w, st, m)
    ensures var (w', r) := Exec(w, Request(cfg, st)); OnTrack(given, w', ResumeEs(st, r), m)
  {
    EsProgress(cfg, given, w, st);
    EsKeeps(cfg, w, st, Fine);
    SameObjects(given, w, Exec(w, Request(cfg, st)).0, st.cr.id.ns, m);
  }

  lemma EsKeeps(cfg: Config, w: World, st: Worker, fate: Fate)
    requires st.At? && InEs(st.pc)
    ensures var w' := Attempt(w, Request(cfg, st), fate).0;
            w'.objects == w.objects && w'.crs == w.crs && w'.secrets == w.secrets
  {
  }

  /** With Kafka announced, what is read there suffices. */
  lemma ReadingProgress(cfg: Config, given: Readings, w: World, st: Worker)
    requires st.At? && (st.pc.KafkaInfo? || (st.pc.Predict? && st.pc.seen.SeenNothing?))
    requires PcOnTrack(given, w, st.cr.id.ns, st.pc) && RequirementsRead(given, w, st.cr.id.ns)
    requires KafkaAnnounced(given(Key(CartridgeRequirements, st.cr.id.ns)))
    ensures var st' := ResumeReading(cfg, st, Exec(w, Request(cfg, st)).1);
            st'.At? && st'.cr == st.cr && Position(st'.pc) <= 180 && PcOnTrack(given, w, st.cr.id.ns, st'.pc)
  {
  }

  lemma ReadingOnTrack(cfg: Config, given: Readings, w: World, st: Worker, m: nat)
    requires st.At? && (st.pc.Predict? || st.pc.KafkaInfo?) && OnTrack(given, w, st, m)
    ensures OnTrack(given, w, ResumeReading(cfg, st, Exec(w, Request(cfg, st)).1), m)
  {
    if st.pc.Predict? && st.pc.seen.SeenObject? {
      EnsuredOnTrack(cfg, given, w, st, EventProcessingTask, m);
    } else {
      ReadingProgress(cfg, given, w, st);
    }
  }

  lemma CallOnTrack(cfg: Config, given: Readings, w: World, st: Worker, m: nat)
    requires !st.Stop? && WellPlaced(cfg, st) && OnTrack(given, w, st, m)
    requires st.At? && st.pc.Reread? ==> Key(st.pc.slot, st.cr.id.ns) in w.objects
    ensures var (w', r) := Exec(w, Request(cfg, st)); OnTrack(given, w', Resume(cfg, st, r), m)
  {
    if st.At? {
      if InAi(st.pc) { AiOnTrack(cfg, given, w, st, m); }
      else if InEs(st.pc) { EsOnTrack(cfg, given, w, st, m); }
      else if st.pc.Predict? || st.pc.KafkaInfo? { ReadingOnTrack(cfg, given, w, st, m); }
      else if st.pc.Look? { LookOnTrack(cfg, given, w, st, m); }
      else if st.pc.Make? { MakeOnTrack(cfg, given, w, st, m); }
      else { RereadOnTrack(cfg, given, w, st, m); }
    }
  }

  // ---------- whole passes ----------

  lemma {:induction false} FaultlessPass(cfg: Config, given: Readings, sc: Script, w: World, ready: set<Key>,
      st: Worker, m: nat)
    requires Place(cfg, w, ready, st) && OnTrack(given, w, st, m) && Faults(cfg, given, sc, w, st) == 0
    ensures var (w', st') := Pass(cfg, given, sc, w, st);
            st'.outcome.Succeeded? || (st'.outcome.Requeued? && Missing(w', IdOf(st).ns) < m)
    decreases Site(cfg, st)
  {
    if !st.Stop? {
      var n := Site(cfg, st);
      var w1 := Before(cfg, given, sc, w, st);
      assert w1.objects.Keys == w.objects.Keys;
      PlaceGrows(cfg, w, w1, ready, ready, st);
      SettleKeepsTrack(given, (k: Key) => sc.settled(n, k), w, st, m);
      if st.At? && st.pc.Reread? { assert Mandatory(cfg, st.pc.slot); }
      CallOnTrack(cfg, given, w1, st, m);
      CallPlace(cfg, w1, ready, st, Fine);
      MoveDescends(cfg, given, sc, w, st);
      var (w', st') := Move(cfg, given, sc, w, st);
      KeepsId(cfg, w1, st);
      FaultlessPass(cfg, given, sc, w', Observed(ready, st, Request(cfg, st), Exec(w1, Request(cfg, st)).1), st', m);
    }
  }

  /** Place carries over a scripted call. */
  lemma MovePlace(cfg: Config, given: Readings, sc: Script, w: World, ready: set<Key>, st: Worker)
      returns (ready': set<Key>)
    requires !st.Stop? && Place(cfg, w, ready, st)
    ensures var (w', st') := Move(cfg, given, sc, w, st); Place(cfg, w', ready', st')
  {
    var w1, op := Before(cfg, given, sc, w, st), Request(cfg, st);
    assert w1.objects.Keys == w.objects.Keys;
    PlaceGrows(cfg, w, w1, ready, ready, st);
    ready' := ready;
    match sc.events(Site(cfg, st)) {
      case Goes(fate) =>
        CallPlace(cfg, w1, ready, st, fate);
        ready' := Observed(ready, st, op, Attempt(w1, op, fate).1);
      case DiesBefore => StoppedPlace(cfg, w1, ready, Dead(st));
      case DiesAfter => StoppedPlace(cfg, Exec(w1, op).0, ready, Dead(st));
    }
  }

  lemma KeepsId(cfg: Config, w: World, st: Worker)
    requires !st.Stop? && (st.Fetch? && st.id in w.crs ==> w.crs[st.id].id == st.id)
    ensures IdOf(Resume(cfg, st, Exec(w, Request(cfg, st)).1)) == IdOf(st)
  {
  }

  /** Even a pass that fails takes nothing away. */
  lemma {:induction false} PassTakesNothing(cfg: Config, given: Readings, sc: Script, w: World, st: Worker)
    requires WellPlaced(cfg, st)
    ensures var w' := Pass(cfg, given, sc, w, st).0;
            w.objects.Keys <= w'.objects.Keys && w'.crs == w.crs && w'.secrets == w.secrets && w.indices <= w'.indices
    decreases Site(cfg, st)
  {
    if !st.Stop? {
      var w1, op := Before(cfg, given, sc, w, st), Request(cfg, st);
      assert w1.objects.Keys == w.objects.Keys;
      match sc.events(Site(cfg, st)) {
        case Goes(fate) => AttemptGrows(w1, op, fate); Safety.AttemptKeepsInputs(w1, op, fate);
        case DiesBefore =>
        case DiesAfter => AttemptGrows(w1, op, Fine); Safety.AttemptKeepsInputs(w1, op, Fine);
      }
      MoveDescends(cfg, given, sc, w, st);
      var (w', st') := Move(cfg, given, sc, w, st);
      PassTakesNothing(cfg, given, sc, w', st');
    }
  }

  /** One pass for `id`, begun when the statuses in store have reached every object that is there. */
  function FullPass(cfg: Config, given: Readings, id: CRName, sc: Script, w: World): (World, Worker) {
    Pass(cfg, given, sc, SettleAll(given, w), Fetch(id))
  }

  predicate SomeSucceeds(cfg: Config, given: Readings, id: CRName, w: World, scripts: seq<Script>)
    decreases |scripts|
  {
    |scripts| > 0 &&
    var (w', st') := FullPass(cfg, given, id, scripts[0], w);
    st'.outcome.Succeeded? || SomeSucceeds(cfg, given, id, w', scripts[1..])
  }

  function TotalFaults(cfg: Config, given: Readings, id: CRName, w: World, scripts: seq<Script>): nat
    decreases |scripts|
  {
    if |scripts| == 0 then 0 else
    Faults(cfg, given, scripts[0], SettleAll(given, w), Fetch(id))
    + TotalFaults(cfg, given, id, FullPass(cfg, given, id, scripts[0], w).0, scripts[1..])
  }

  lemma StartsSettled(given: Readings, w: World, ns: string)
    ensures var w0 := SettleAll(given, w); Settling(given, w0) && AwaitedSettled(given, w0, ns)
    ensures Ripe(given, w, ns) ==> Ripe(given, SettleAll(given, w), ns)
  {
  }

  lemma BeginsOnTrack(given: Readings, w: World, id: CRName)
    requires id in w.crs && w.crs[id].id == id && Settling(given, w) && Ripe(given, w, id.ns)
    requires AwaitedSettled(given, w, id.ns)
    ensures OnTrack(given, w, Fetch(id), Missing(w, id.ns))
  {
  }

  /** A pass keeps what is needed; without faults it succeeds or closes a gap. */
  lemma {:induction false} OnePass(cfg: Config, given: Readings, id: CRName, w: World, sc: Script)
    requires id in w.crs && w.crs[id].id == id && Ripe(given, w, id.ns)
    ensures var (w', st') := FullPass(cfg, given, id, sc, w);
            && w'.crs == w.crs && Ripe(given, w', id.ns) && Missing(w', id.ns) <= Missing(w, id.ns)
            && (Faults(cfg, given, sc, SettleAll(given, w), Fetch(id)) == 0 ==>
                 st'.outcome.Succeeded? || Missing(w', id.ns) < Missing(w, id.ns))
  {
    var w0 := SettleAll(given, w);
    assert w0.objects.Keys == w.objects.Keys;
    assert Missing(w0, id.ns) == Missing(w, id.ns);
    PassTakesNothing(cfg, given, sc, w0, Fetch(id));
    if Faults(cfg, given, sc, w0, Fetch(id)) == 0 {
      StartsSettled(given, w, id.ns);
      BeginsOnTrack(given, w0, id);
      FreshPlace(cfg, w0, id);
      FaultlessPass(cfg, given, sc, w0, {}, Fetch(id), Missing(w, id.ns));
    }
  }

  lemma FreshPlace(cfg: Config, w: World, id: CRName)
    ensures Place(cfg, w, {}, Fetch(id))
  {
  }

  lemma {:induction false} GapsAndFaultsBoundPasses(cfg: Config, given: Readings, id: CRName, w: World,
      scripts: seq<Script>)
    requires id in w.crs && w.crs[id].id == id && Ripe(given, w, id.ns)
    requires |scripts| >= Missing(w, id.ns) + 1 + TotalFaults(cfg, given, id, w, scripts)
    ensures SomeSucceeds(cfg, given, id, w, scripts)
    decreases |scripts|
  {
    var (w', st') := FullPass(cfg, given, id, scripts[0], w);
    OnePass(cfg, given, id, w, scripts[0]);
    if !st'.outcome.Succeeded? {
      GapsAndFaultsBoundPasses(cfg, given, id, w', scripts[1..]);
    }
  }

  /** Bounded convergence. Let every object's status be the one in store by the beginning of the next pass, let those
      statuses be ripe, and let nothing be deleted. Then from any subset of the objects, whatever calls fail and
      wherever the process dies, 5 + f passes are enough for one to succeed, f being the number of calls that did
      not go well. */
  lemma {:induction false} BoundedConvergence(cfg: Config, given: Readings, id: CRName, w: World, scripts: seq<Script>)
    requires id in w.crs && w.crs[id].id == id && Ripe(given, w, id.ns)
    requires |scripts| >= 5 + TotalFaults(cfg, given, id, w, scripts)
    ensures SomeSucceeds(cfg, given, id, w, scripts)
  {
    GapsAndFaultsBoundPasses(cfg, given, id, w, scripts);
  }
}

/** One pass of `Reconcile` as a program counter that moves one API call at a time: `Request` is the call the pass
    makes next, `Resume` is where it goes on the reply. Between two calls anything may happen to the cluster. */
module Protocol {
  import opened Options
  import opened Store
  import opened Endpoints

  /** What the pass read from the cluster to build one object. */
  datatype Reading = NoReading | Bootstrap(servers: string) | Listener(endpoint: KafkaEndpoint) | Predictor(url: string)

  /** `blueprint` builds the spec of an object; it is a parameter so that no result here depends on a spec's text. */
  datatype Config = Config(useKnative: string, models: seq<string>, blueprint: (CR, Slot, Reading) -> Spec)

  predicate KnativeOn(cfg: Config) { EqualFold(cfg.useKnative, "true") }

  const MINIO_SECRET := "minio-secret"
  const KF_SECRET := "kfserving-secret"

  // ---------- API calls ----------

  datatype Op =
    | GetCR(id: CRName)
    | Get(key: Key)
    | GetSecret(ns: string, name: string)
    | Create(key: Key, obj: Object)
    | BucketExists(minio: string)
    | MakeBucket(minio: string)
    | PutObject(minio: string, path: string)
    | PutIndex(es: string, topic: Topic)

  datatype Reply =
    | FoundCR(cr: CR)
    | Found(obj: Object)
    | FoundSecret(secret: Secret)
    | Answer(yes: bool)
    | HttpReply(http: Http)
    | Done
    | NotFound
    | AlreadyExists
    | Failed

  function Exec(w: World, op: Op): (World, Reply) {
    match op
    case GetCR(id) => (w, if id in w.crs then FoundCR(w.crs[id]) else NotFound)
    case Get(k) => (w, if k in w.objects then Found(w.objects[k]) else NotFound)
    case GetSecret(ns, name) => (w, if (ns, name) in w.secrets then FoundSecret(w.secrets[(ns, name)]) else NotFound)
    case Create(k, o) => if k in w.objects then (w, AlreadyExists) else (w.(objects := w.objects[k := o]), Done)
    case BucketExists(m) => (w, Answer(m in w.buckets))
    case MakeBucket(m) => if m in w.buckets then (w, AlreadyExists) else (w.(buckets := w.buckets[m := []]), Done)
    case PutObject(m, path) =>
      if m in w.buckets then (w.(buckets := w.buckets[m := w.buckets[m] + [path]]), Done) else (w, Failed)
    case PutIndex(es, t) =>
      if (es, t) in w.indices then (w, HttpReply(Http(400, Some(ALREADY_EXISTS))))
      else (w.(indices := w.indices + {(es, t)}), HttpReply(Http(200, None)))
  }

  /** How a call goes: well; refused before it had any effect (`http` is the status of a refused PUT index);
      or carried out with the reply lost on the way back. */
  datatype Fate = Fine | Refused(http: Option<Http>) | ReplyLost

  function Attempt(w: World, op: Op, fate: Fate): (World, Reply) {
    match fate
    case Fine => Exec(w, op)
    case Refused(http) =>
      (w, if op.PutIndex? && http.Some? && http.value.code != 200
              && http.value.errorType != Some("resource_already_exists_exception")
         then HttpReply(http.value) else Failed)
    case ReplyLost => (Exec(w, op).0, Failed)
  }

  // ---------- the program counter ----------

  datatype Seen = SeenObject | SeenNothing | SeenError
  datatype KafkaUser = ForKnative | ForApp(app: App)

  datatype Pc =
    | Look(slot: Slot, reading: Reading)      // Get, to see whether the object is there
    | Make(slot: Slot, reading: Reading)      // Create, after NotFound
    | Reread(slot: Slot)                      // Get again, after creating or finding
    | AiSecret
    | AiBucketQuery(minio: string)
    | AiMakeBucket(minio: string)
    | AiUpload(minio: string, i: nat)
    | AiStatus
    | AiKfSecret
    | AiCreate(slot: Slot)
    | EsInfo
    | EsAuth(conn: EsConn)
    | EsCert(conn: EsConn)
    | EsPut(es: string, topic: Topic)
    | Predict(seen: Seen)
    | KafkaInfo(user: KafkaUser)

  predicate InAi(pc: Pc) {
    pc.AiSecret? || pc.AiBucketQuery? || pc.AiMakeBucket? || pc.AiUpload? || pc.AiStatus? || pc.AiKfSecret?
      || pc.AiCreate?
  }

  predicate InEs(pc: Pc) { pc.EsInfo? || pc.EsAuth? || pc.EsCert? || pc.EsPut? }

  datatype Outcome = Succeeded | Requeued | Errored | Ignored | Panicked | Died

  /** What a pass remembers: whether the AI stage came back with (false, nil), and the Elasticsearch it set up. */
  datatype Memo = Memo(aiClean: bool, es: Option<string>)

  datatype Worker =
    | Fetch(id: CRName)
    | At(cr: CR, pc: Pc, memo: Memo)
    | Stop(id: CRName, outcome: Outcome, memo: Memo)

  const BLANK := Memo(false, None)

  function Request(cfg: Config, st: Worker): Op
    requires !st.Stop?
  {
    if st.Fetch? then GetCR(st.id) else
    var ns := st.cr.id.ns;
    match st.pc
    case Look(s, _) => Get(Key(s, ns))
    case Make(s, rd) => Create(Key(s, ns), NewObject(cfg, st.cr, s, rd))
    case Reread(s) => Get(Key(s, ns))
    case AiSecret => GetSecret(ns, MINIO_SECRET)
    case AiBucketQuery(m) => BucketExists(m)
    case AiMakeBucket(m) => MakeBucket(m)
    case AiUpload(m, i) => PutObject(m, if i < |cfg.models| then cfg.models[i] else "")
    case AiStatus => Get(Key(AIDeployment, ns))
    case AiKfSecret => GetSecret(ns, KF_SECRET)
    case AiCreate(s) => Create(Key(s, ns), NewObject(cfg, st.cr, s, NoReading))
    case EsInfo => Get(Key(CartridgeRequirements, ns))
    case EsAuth(conn) => GetSecret(ns, conn.authSecret)
    case EsCert(conn) => GetSecret(ns, conn.certSecret)
    case EsPut(es, t) => PutIndex(es, t)
    case Predict(_) => Get(Key(AIDeployment, ns))
    case KafkaInfo(_) => Get(Key(CartridgeRequirements, ns))
  }

  function OwnerOf(cr: CR): Owner { Owner(cr.id, cr.uid) }

  function NewObject(cfg: Config, cr: CR, s: Slot, rd: Reading): Object {
    Object(cfg.blueprint(cr, s, rd), Some(OwnerOf(cr)), EMPTY_STATUS)
  }

  /** Where the pass goes once the object in slot `s` is known to exist. */
  function AfterEnsured(cfg: Config, s: Slot): Option<Pc> {
    match s
    case Cartridge | AutomationBase | CartridgeRequirements => Some(Reread(s))
    case KafkaTopic(_) => Some(Reread(s))
    case EventProcessor => Some(EsInfo)
    case EventProcessingTask => Some(KafkaInfo(if KnativeOn(cfg) then ForKnative else ForApp(Producer)))
    case KafkaSource => Some(Look(InMemoryChannel, NoReading))
    case InMemoryChannel => Some(Look(Subscription, NoReading))
    case Subscription => Some(KafkaInfo(ForApp(Producer)))
    case Deployment(a) => Some(Look(Service(a), NoReading))
    case Service(a) => Some(Look(Route(a), NoReading))
    case Route(a) => if a.Producer? then Some(KafkaInfo(ForApp(Server))) else None
    case AIRuntime | AIModel | AIDeployment => None
  }

  /** Where the pass goes once a re-read is satisfied. */
  function AfterReread(s: Slot): Pc {
    match s
    case Cartridge => Look(AutomationBase, NoReading)
    case AutomationBase => Look(CartridgeRequirements, NoReading)
    case CartridgeRequirements => AiSecret
    case KafkaTopic(t) => if t.Raw? then Look(KafkaTopic(Risk), NoReading) else Look(EventProcessor, NoReading)
    case _ => AiSecret
  }

  function Finish(st: Worker, outcome: Outcome): Worker
    requires st.At?
  {
    Stop(st.cr.id, outcome, st.memo)
  }

  function Ensured(cfg: Config, st: Worker, s: Slot): Worker
    requires st.At?
  {
    var next := AfterEnsured(cfg, s);
    if next.Some? then st.(pc := next.value) else Finish(st, Succeeded)
  }

  /** The AI stage is over; an error there is only logged. */
  function LeaveAi(st: Worker, clean: bool): Worker
    requires st.At?
  {
    At(st.cr, Look(KafkaTopic(Raw), NoReading), st.memo.(aiClean := clean))
  }

  function AfterUpload(cfg: Config, minio: string, i: nat): Pc {
    if i < |cfg.models| then AiUpload(minio, i) else AiStatus
  }

  /** The MinIO endpoint, when the storage secret has all it must have. */
  function MinioEndpoint(secret: Secret): Option<string> {
    if "AWS_ACCESS_KEY_ID" in secret.data && "AWS_SECRET_ACCESS_KEY" in secret.data
       && "serving.kubeflow.org/s3-endpoint" in secret.annotations
    then Some(TrimNewline(secret.annotations["serving.kubeflow.org/s3-endpoint"])) else None
  }

  function EsConnOf(st: Status): Option<EsConn> {
    if st.components.Some? && st.components.value.elasticSearch.Some? then
      var c := ScanEs(st.components.value.elasticSearch.value);
      if |c.endpoint| == 0 then None else Some(c)
    else None
  }

  function KafkaOf(st: Status): Option<seq<KafkaEndpoint>> {
    if st.components.Some? then st.components.value.kafka else None
  }

  predicate HasLogin(secret: Secret) { "username" in secret.data && "password" in secret.data }
  predicate HasCa(secret: Secret) { "ca.crt" in secret.data }

  /** Gates, topics and every other create-if-absent step. */
  function ResumeObject(cfg: Config, st: Worker, r: Reply): Worker
    requires st.At? && (st.pc.Look? || st.pc.Make? || st.pc.Reread?)
  {
    match st.pc
    case Look(s, rd) =>
      if s.EventProcessingTask? then
        st.(pc := Predict(if r.Found? then SeenObject else if r.NotFound? then SeenNothing else SeenError))
      else if r.Found? then Ensured(cfg, st, s)
      else if r.NotFound? then st.(pc := Make(s, rd))
      else Finish(st, Errored)
    case Make(s, _) => if r.Done? then Ensured(cfg, st, s) else Finish(st, Errored)
    case Reread(s) =>
      if !r.Found? then Finish(st, Errored)
      else if IsGate(s) && !IsReady(r.obj.status) then Finish(st, Requeued)
      else st.(pc := AfterReread(s))
  }

  /** `setupAIModels` and `deployModelOnKubeflow`. */
  function ResumeAi(cfg: Config, st: Worker, r: Reply): Worker
    requires st.At? && InAi(st.pc)
  {
    match st.pc
    case AiSecret =>
      if r.FoundSecret? && MinioEndpoint(r.secret).Some?
      then st.(pc := AiBucketQuery(MinioEndpoint(r.secret).value)) else LeaveAi(st, false)
    case AiBucketQuery(m) =>
      if r.Answer? then st.(pc := if r.yes then AiStatus else AiMakeBucket(m)) else LeaveAi(st, false)
    case AiMakeBucket(m) => if r.Done? then st.(pc := AfterUpload(cfg, m, 0)) else LeaveAi(st, false)
    case AiUpload(m, i) => if r.Done? then st.(pc := AfterUpload(cfg, m, i + 1)) else LeaveAi(st, false)
    case AiStatus =>
      if r.Found? then
        match DeploymentVerdict(r.obj.status) {
          case Retry => Finish(st, Requeued)
          case Clean => LeaveAi(st, true)
          case Broken => LeaveAi(st, false)
        }
      else if r.NotFound? then st.(pc := AiKfSecret)
      else LeaveAi(st, false)
    case AiKfSecret => if r.FoundSecret? then st.(pc := AiCreate(AIRuntime)) else LeaveAi(st, false)
    case AiCreate(s) =>
      if r.Done? || r.AlreadyExists? then
        match s {
          case AIRuntime => st.(pc := AiCreate(AIModel))
          case AIModel => st.(pc := AiCreate(AIDeployment))
          case _ => Finish(st, Requeued)
        }
      else LeaveAi(st, false)
  }

  /** `initializeElasticsearchIndices`. */
  function ResumeEs(st: Worker, r: Reply): Worker
    requires st.At? && InEs(st.pc)
  {
    match st.pc
    case EsInfo =>
      if r.Found? && EsConnOf(r.obj.status).Some?
      then st.(pc := EsAuth(EsConnOf(r.obj.status).value)) else Finish(st, Errored)
    case EsAuth(conn) =>
      if r.FoundSecret? && HasLogin(r.secret)
      then st.(pc := if conn.certSecret != "" then EsCert(conn) else EsPut(conn.endpoint, Raw))
      else Finish(st, Errored)
    case EsCert(conn) =>
      if r.FoundSecret? && HasCa(r.secret) then st.(pc := EsPut(conn.endpoint, Raw)) else Finish(st, Errored)
    case EsPut(es, t) =>
      if !(r.HttpReply? && Accepted(r.http)) then Finish(st, Errored)
      else if t.Raw? then st.(pc := EsPut(es, Risk))
      else At(st.cr, Look(EventProcessingTask, NoReading), st.memo.(es := Some(es)))
  }

  /** `getPredictorURL` for the task, and the Kafka address for Knative and the microservices. */
  function ResumeReading(cfg: Config, st: Worker, r: Reply): Worker
    requires st.At? && (st.pc.Predict? || st.pc.KafkaInfo?)
  {
    match st.pc
    case Predict(seen) =>
      var url := if r.Found? then PredictorUrl(r.obj.status) else "";
      match seen {
        case SeenObject => Ensured(cfg, st, EventProcessingTask)
        case SeenNothing => st.(pc := Make(EventProcessingTask, Predictor(url)))
        case SeenError => Finish(st, Errored)
      }
    case KafkaInfo(user) =>
      if !(r.Found? && KafkaOf(r.obj.status).Some?) then Finish(st, Errored) else
      var eps := KafkaOf(r.obj.status).value;
      match user {
        case ForKnative => st.(pc := Look(KafkaSource, Bootstrap(LastPlain(eps))))
        case ForApp(a) =>
          var e := FirstTls(eps);
          if e.None? then Finish(st, Errored)
          else if !Dereferenceable(e.value) then Finish(st, Panicked)
          else st.(pc := Look(Deployment(a), Listener(e.value)))
      }
  }

  function Resume(cfg: Config, st: Worker, r: Reply): Worker
    requires !st.Stop?
  {
    if st.Fetch? then
      if r.FoundCR? then At(r.cr, Look(Cartridge, NoReading), BLANK)
      else Stop(st.id, if r.NotFound? then Ignored else Errored, BLANK)
    else if InAi(st.pc) then ResumeAi(cfg, st, r)
    else if InEs(st.pc) then ResumeEs(st, r)
    else if st.pc.Predict? || st.pc.KafkaInfo? then ResumeReading(cfg, st, r)
    else ResumeObject(cfg, st, r)
  }

  // ---------- the order of the stages ----------

  /** Stages count down: a slot's object is ensured before that of every slot with a smaller weight. */
  function Weight(s: Slot): nat {
    match s
    case Cartridge => 200
    case AutomationBase => 190
    case CartridgeRequirements => 180
    case AIRuntime => 172
    case AIModel => 171
    case AIDeployment => 170
    case KafkaTopic(t) => if t.Raw? then 160 else 150
    case EventProcessor => 140
    case EventProcessingTask => 120
    case KafkaSource => 110
    case InMemoryChannel => 100
    case Subscription => 90
    case Deployment(a) => if a.Producer? then 80 else 50
    case Service(a) => if a.Producer? then 70 else 40
    case Route(a) => if a.Producer? then 60 else 30
  }

  /** The position of a call: later calls have smaller positions. */
  function Position(pc: Pc): nat {
    match pc
    case Look(s, _) => Weight(s) + 4
    case Make(s, _) => Weight(s) + 2
    case Reread(s) => Weight(s) + 1
    case AiSecret => 179
    case AiBucketQuery(_) => 178
    case AiMakeBucket(_) => 177
    case AiUpload(_, _) => 176
    case AiStatus => 175
    case AiKfSecret => 174
    case AiCreate(s) => Weight(s)
    case EsInfo => 135
    case EsAuth(_) => 134
    case EsCert(_) => 133
    case EsPut(_, t) => if t.Raw? then 132 else 131
    case Predict(_) => 123
    case KafkaInfo(u) => if u.ForKnative? then 115 else if u.app.Producer? then 85 else 55
  }

  /** The number of a call site. No site is visited twice in one pass. */
  function Site(cfg: Config, st: Worker): nat {
    match st
    case Stop(_, _, _) => 0
    case Fetch(_) => 300 + |cfg.models|
    case At(_, pc, _) =>
      Position(pc) + (if pc.AiUpload? then (if pc.i < |cfg.models| then |cfg.models| - pc.i else 0)
                      else if Position(pc) > 176 then |cfg.models| else 0)
  }

  /** The program counters that a pass can really be at. */
  predicate WellPlaced(cfg: Config, st: Worker) {
    st.At? ==>
      match st.pc
      case Look(s, rd) => !IsAi(s) && ReadingFits(s, rd) && (IsKnative(s) ==> KnativeOn(cfg))
      case Make(s, rd) => !IsAi(s) && (if s.EventProcessingTask? then rd.Predictor? else ReadingFits(s, rd))
                          && (IsKnative(s) ==> KnativeOn(cfg))
      case Reread(s) => IsGate(s) || s.KafkaTopic?
      case AiCreate(s) => IsAi(s)
      case AiUpload(_, i) => i < |cfg.models|
      case KafkaInfo(u) => u.ForKnative? ==> KnativeOn(cfg)
      case _ => true
  }

  predicate ReadingFits(s: Slot, rd: Reading) {
    match s
    case KafkaSource => rd.Bootstrap?
    case Deployment(_) => rd.Listener?
    case _ => rd.NoReading?
  }

  lemma ObjectDescends(cfg: Config, st: Worker, r: Reply)
    requires st.At? && (st.pc.Look? || st.pc.Make? || st.pc.Reread?) && WellPlaced(cfg, st)
    ensures WellPlaced(cfg, ResumeObject(cfg, st, r))
    ensures Site(cfg, ResumeObject(cfg, st, r)) < Site(cfg, st)
  {
  }

  lemma AiDescends(cfg: Config, st: Worker, r: Reply)
    requires st.At? && InAi(st.pc) && WellPlaced(cfg, st)
    ensures WellPlaced(cfg, ResumeAi(cfg, st, r))
    ensures Site(cfg, ResumeAi(cfg, st, r)) < Site(cfg, st)
  {
  }

  lemma EsDescends(cfg: Config, st: Worker, r: Reply)
    requires st.At? && InEs(st.pc) && WellPlaced(cfg, st)
    ensures WellPlaced(cfg, ResumeEs(st, r))
    ensures Site(cfg, ResumeEs(st, r)) < Site(cfg, st)
  {
  }

  lemma ReadingDescends(cfg: Config, st: Worker, r: Reply)
    requires st.At? && (st.pc.Predict? || st.pc.KafkaInfo?) && WellPlaced(cfg, st)
    ensures WellPlaced(cfg, ResumeReading(cfg, st, r))
    ensures Site(cfg, ResumeReading(cfg, st, r)) < Site(cfg, st)
  {
  }

  /** Every reply moves a pass to a well-placed later site: a pass makes finitely many calls. */
  lemma ResumeDescends(cfg: Config, st: Worker, r: Reply)
    requires !st.Stop? && WellPlaced(cfg, st)
    ensures WellPlaced(cfg, Resume(cfg, st, r))
    ensures Site(cfg, Resume(cfg, st, r)) < Site(cfg, st)
  {
    if st.At? {
      if InAi(st.pc) { AiDescends(cfg, st, r); }
      else if InEs(st.pc) { EsDescends(cfg, st, r); }
      else if st.pc.Predict? || st.pc.KafkaInfo? { ReadingDescends(cfg, st, r); }
      else { ObjectDescends(cfg, st, r); }
    }
  }

  /** A pass asks to be requeued exactly if it reads a gate whose Ready condition is missing or not True, or an
      AIDeployment whose Ready condition is missing, Unknown or Pending, or has just seen to the AIDeployment itself. */
  lemma RequeueSources(cfg: Config, st: Worker, r: Reply)
    requires !st.Stop? && WellPlaced(cfg, st)
    ensures Resume(cfg, st, r).Stop? && Resume(cfg, st, r).outcome.Requeued? <==>
              && st.At?
              && (|| (st.pc.Reread? && st.pc.slot in {Cartridge, AutomationBase, CartridgeRequirements} && r.Found?
                      && !(r.obj.status.ready.Some? && r.obj.status.ready.value.status.ConditionTrue?))
                  || (st.pc.AiStatus? && r.Found?
                      && (|| r.obj.status.ready.None?
                          || r.obj.status.ready.value.status.ConditionUnknown?
                          || EqualFold(r.obj.status.ready.value.reason, "Pending")))
                  || (st.pc == AiCreate(AIDeployment) && (r.Done? || r.AlreadyExists?)))
  {
  }

  /** A pass succeeds only at its last call. */
  lemma SuccessSource(cfg: Config, st: Worker, r: Reply)
    requires !st.Stop? && WellPlaced(cfg, st)
    requires Resume(cfg, st, r).Stop? && Resume(cfg, st, r).outcome.Succeeded?
    ensures st.At? && (st.pc.Look? || st.pc.Make?) && st.pc.slot == Route(Server)
    ensures if st.pc.Look? then r.Found? else r.Done?
  {
  }
}

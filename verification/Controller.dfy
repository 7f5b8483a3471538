/** The reconciler as it is written: methods that make API calls one after the other on a cluster that others change
    all the while. Every execution is proved to be a run of the concurrent system in which this reconciler is the
    worker `me`, so what holds of all runs holds of it. */
module Controller {
  import opened Options
  import opened Store
  import opened Endpoints
  import opened Protocol
  import opened System
  import opened Stages
  import opened Manifests
  import Passes

  /** How `Reconcile` comes back: with a delay in seconds after which to requeue (0 for none) and perhaps an error, or
      not at all because a nil pointer was followed. */
  datatype Ended = Returned(requeueAfter: nat, err: bool) | Panic

  const SUCCESS := Returned(0, false)
  const REQUEUE := Returned(30, false)
  const FAILURE := Returned(0, true)

  function EndOf(outcome: Outcome): Ended {
    match outcome
    case Succeeded => SUCCESS
    case Ignored => SUCCESS
    case Requeued => REQUEUE
    case Errored => FAILURE
    case Panicked => Panic
    case Died => Panic
  }

  class Reconciler {
    var world: World
    const me: nat
    const images: Images
    const cfg: Config

    // The run of the system that has led to the present world, and where it began.
    ghost const start: Sys
    ghost var log: seq<Step>
    ghost var sys: Sys

    /** The specs that this reconciler builds are the real ones. */
    ghost predicate Bundled() { cfg.blueprint == Blueprint(images) }

    ghost predicate Valid()
      reads this
    {
      System.Valid(cfg, start, log) && Run(cfg, start, log) == sys && sys.w == world && KeyedCrs(world)
    }

    /** Where this reconciler's pass stands. */
    ghost function St(): Worker
      requires me in sys.workers
      reads this
    {
      sys.workers[me].st
    }

    ghost predicate Working()
      reads this
    {
      Valid() && me in sys.workers
    }

    constructor (me: nat, images: Images, useKnative: string, models: seq<string>, world: World, ghost start: Sys)
      requires start.w == world && KeyedCrs(world) && !Busy(start, me)
      ensures Valid() && log == [] && sys == start
      ensures Bundled() && this.me == me && this.images == images && cfg.useKnative == useKnative
              && cfg.models == models
    {
      this.me := me;
      this.images := images;
      this.cfg := Config(useKnative, models, Blueprint(images));
      this.world := world;
      this.start := start;
      this.log := [];
      this.sys := start;
    }

    // ---------- the API client ----------

    /** The cluster moves on without this reconciler: other workers, users and other operators take any number of
        steps. Only what the contract says is known afterwards. */
    method Interfere()
      requires Working()
      modifies this`world, this`sys, this`log
      ensures Working() && St() == old(St())
      ensures old(log) <= log && forall i :: |old(log)| <= i < |log| ==> !IsMine(log[i])
    {
    }

    predicate IsMine(step: Step) {
      match step
      case Begin(r, _) => r == me
      case Call(r, _) => r == me
      case Crash(r) => r == me
      case Environment(_) => false
    }

    /** One API call, made at some later moment and with any fate. */
    method Do(op: Op) returns (reply: Reply)
      requires Working() && !St().Stop? && Request(cfg, St()) == op
      modifies this`world, this`sys, this`log
      ensures Working() && St() == Resume(cfg, old(St()), reply)
      ensures old(log) < log
      ensures reply.FoundCR? ==> op.GetCR? && reply.cr.id == op.id
      ensures op.GetCR? && reply.NotFound? ==> op.id !in world.crs
      ensures old(St()).At? && old(St()).pc.Predict? ==>
                sys.workers[me].answer == if reply.Found? then Some(reply.obj.status) else None
    {
      Interfere();
      var fate: Fate := *;
      var next, r := Attempt(world, op, fate).0, Attempt(world, op, fate).1;
      reply := r;
      Passes.OneStep(cfg, sys, Call(me, fate));
      RunConcat(cfg, start, log, [Call(me, fate)]);
      sys := Apply(cfg, sys, Call(me, fate));
      log := log + [Call(me, fate)];
      world := next;
    }

    // ---------- create if absent ----------

    /** The Create call, after NotFound. */
    method CreateObject(cr: CR, s: Slot, obj: Object, ghost rd: Reading, ghost memo: Memo) returns (err: bool)
      requires Working() && St() == At(cr, Make(s, rd), memo) && obj == NewObject(cfg, cr, s, rd)
      modifies this`world, this`sys, this`log
      ensures Working() && old(log) < log
      ensures St() == if err then Stop(cr.id, Errored, memo) else Ensured(cfg, old(St()), s)
    {
      var created := Do(Create(Key(s, cr.id.ns), obj));
      return !created.Done?;
    }

    /** Get; if NotFound then Create. */
    method Ensure(cr: CR, s: Slot, obj: Object, ghost rd: Reading, ghost memo: Memo) returns (err: bool)
      requires Working() && St() == At(cr, Look(s, rd), memo) && !s.EventProcessingTask?
      requires obj == NewObject(cfg, cr, s, rd)
      modifies this`world, this`sys, this`log
      ensures Working() && old(log) < log
      ensures St() == if err then Stop(cr.id, Errored, memo) else Ensured(cfg, old(St()), s)
    {
      var r := Do(Get(Key(s, cr.id.ns)));
      if r.NotFound? {
        err := CreateObject(cr, s, obj, rd, memo);
        return err;
      }
      return !r.Found?;
    }

    /** The same for an object that needs no reading of the cluster, or a reading that is at hand. */
    method CreateIfAbsent(cr: CR, s: Slot, rd: Reading, ghost memo: Memo) returns (err: bool)
      requires Working() && St() == At(cr, Look(s, rd), memo) && !s.EventProcessingTask?
      modifies this`world, this`sys, this`log
      ensures Working() && old(log) < log
      ensures St() == if err then Stop(cr.id, Errored, memo) else Ensured(cfg, old(St()), s)
    {
      err := Ensure(cr, s, NewObject(cfg, cr, s, rd), rd, memo);
    }

    /** `createCartridge`, `createAutomationBase` and `createCartridgeRequirements`. */
    method CreateGate(cr: CR, s: Slot, ghost memo: Memo) returns (retryAfter: bool, err: bool)
      requires Working() && IsGate(s) && St() == At(cr, Look(s, NoReading), memo)
      modifies this`world, this`sys, this`log
      ensures Working() && old(log) < log && !(retryAfter && err)
      ensures St() == if err then Stop(cr.id, Errored, memo) else if retryAfter then Stop(cr.id, Requeued, memo)
                      else At(cr, AfterReread(s), memo)
    {
      err := CreateIfAbsent(cr, s, NoReading, memo);
      if err {
        return false, true;
      }
      var r := Do(Get(Key(s, cr.id.ns)));
      if !r.Found? {
        return false, true;
      }
      return !IsReady(r.obj.status), false;
    }

    /** `createEventStream`. */
    method CreateEventStream(cr: CR, t: Topic, ghost memo: Memo) returns (err: bool)
      requires Working() && St() == At(cr, Look(KafkaTopic(t), NoReading), memo)
      modifies this`world, this`sys, this`log
      ensures Working() && old(log) < log
      ensures St() == if err then Stop(cr.id, Errored, memo) else At(cr, AfterReread(KafkaTopic(t)), memo)
    {
      err := CreateIfAbsent(cr, KafkaTopic(t), NoReading, memo);
      if !err {
        var r := Do(Get(Key(KafkaTopic(t), cr.id.ns)));
        err := !r.Found?;
      }
    }

    // ---------- the AI stage ----------

    /** `setupAIModels`. When it comes back without asking for a requeue the pass is at the first topic. */
    method SetupAIModels(cr: CR, ghost memo: Memo) returns (retryAfter: bool, err: bool)
      requires Working() && St() == At(cr, AiSecret, memo)
      modifies this`world, this`sys, this`log
      ensures Working() && old(log) < log && !(retryAfter && err)
      ensures St() == if retryAfter then Stop(cr.id, Requeued, memo)
                      else At(cr, Look(KafkaTopic(Raw), NoReading), memo.(aiClean := !err))
    {
      var r := Do(GetSecret(cr.id.ns, MINIO_SECRET));
      if !r.FoundSecret? || MinioEndpoint(r.secret).None? {
        return false, true;
      }
      var minio := MinioEndpoint(r.secret).value;
      err := CopyModels(cr, minio, memo);
      if err {
        return false, true;
      }
      retryAfter, err := DeployModelOnKubeflow(cr, memo);
    }

    /** The models are copied only by the pass that makes the bucket. */
    method CopyModels(cr: CR, minio: string, ghost memo: Memo) returns (err: bool)
      requires Working() && St() == At(cr, AiBucketQuery(minio), memo)
      modifies this`world, this`sys, this`log
      ensures Working() && old(log) < log
      ensures St() == if err then LeaveAi(old(St()), false) else At(cr, AiStatus, memo)
    {
      var found := Do(BucketExists(minio));
      if !found.Answer? {
        return true;
      }
      if !found.yes {
        var made := Do(MakeBucket(minio));
        if !made.Done? {
          return true;
        }
        err := UploadModels(cr, minio, memo);
        return err;
      }
      return false;
    }

    /** The walk over the bundled models, ended by the first failing upload. */
    method UploadModels(cr: CR, minio: string, ghost memo: Memo) returns (err: bool)
      requires Working() && St() == At(cr, AfterUpload(cfg, minio, 0), memo)
      modifies this`world, this`sys, this`log
      ensures Working() && old(log) <= log
      ensures St() == if err then LeaveAi(old(St()), false) else At(cr, AiStatus, memo)
    {
      for i := 0 to |cfg.models|
        invariant Working() && old(log) <= log && St() == At(cr, AfterUpload(cfg, minio, i), memo)
      {
        var put := Do(PutObject(minio, cfg.models[i]));
        if !put.Done? {
          return true;
        }
      }
      return false;
    }

    /** `deployModelOnKubeflow`. */
    method DeployModelOnKubeflow(cr: CR, ghost memo: Memo) returns (retryAfter: bool, err: bool)
      requires Working() && St() == At(cr, AiStatus, memo)
      modifies this`world, this`sys, this`log
      ensures Working() && old(log) < log && !(retryAfter && err)
      ensures St() == if retryAfter then Stop(cr.id, Requeued, memo)
                      else At(cr, Look(KafkaTopic(Raw), NoReading), memo.(aiClean := !err))
    {
      var r := Do(Get(Key(AIDeployment, cr.id.ns)));
      if r.Found? {
        var st := r.obj.status;
        if st.ready.Some? {
          if st.ready.value.status.ConditionUnknown? || EqualFold(st.ready.value.reason, "Pending") {
            return true, false;
          }
          if st.ready.value.status.ConditionTrue? {
            return false, |st.endpoint| == 0;
          }
          return false, true;
        }
        return true, false;
      }
      if !r.NotFound? {
        return false, true;
      }
      var kf := Do(GetSecret(cr.id.ns, KF_SECRET));
      if !kf.FoundSecret? {
        return false, true;
      }
      err := CreateTrio(cr, memo);
      return !err, err;
    }

    /** The three Create calls, each content with an object that is already there. */
    method CreateTrio(cr: CR, ghost memo: Memo) returns (err: bool)
      requires Working() && St() == At(cr, AiCreate(AIRuntime), memo)
      modifies this`world, this`sys, this`log
      ensures Working() && old(log) < log
      ensures St() == if err then LeaveAi(old(St()), false) else Stop(cr.id, Requeued, memo)
    {
      var made := Do(Create(Key(AIRuntime, cr.id.ns), NewObject(cfg, cr, AIRuntime, NoReading)));
      if !made.Done? && !made.AlreadyExists? {
        return true;
      }
      made := Do(Create(Key(AIModel, cr.id.ns), NewObject(cfg, cr, AIModel, NoReading)));
      if !made.Done? && !made.AlreadyExists? {
        return true;
      }
      made := Do(Create(Key(AIDeployment, cr.id.ns), NewObject(cfg, cr, AIDeployment, NoReading)));
      return !made.Done? && !made.AlreadyExists?;
    }

    // ---------- event processing ----------

    /** `getElasticsearchInfo`. */
    method GetElasticsearchInfo(cr: CR, ghost memo: Memo) returns (endpoint: string, err: bool)
      requires Working() && St() == At(cr, EsInfo, memo)
      modifies this`world, this`sys, this`log
      ensures Working() && old(log) < log
      ensures St() == if err then Stop(cr.id, Errored, memo) else At(cr, EsPut(endpoint, Raw), memo)
    {
      var r := Do(Get(Key(CartridgeRequirements, cr.id.ns)));
      if !r.Found? || r.obj.status.components.None? || r.obj.status.components.value.elasticSearch.None? {
        return "", true;
      }
      var authSecret, certSecret;
      endpoint, authSecret, certSecret := FindElasticsearch(r.obj.status.components.value.elasticSearch.value);
      if |endpoint| == 0 {
        return endpoint, true;
      }
      err := GetCredentials(cr, EsConn(endpoint, authSecret, certSecret), memo);
    }

    /** The login secret and, when there is one, the certificate secret. */
    method GetCredentials(cr: CR, conn: EsConn, ghost memo: Memo) returns (err: bool)
      requires Working() && St() == At(cr, EsAuth(conn), memo)
      modifies this`world, this`sys, this`log
      ensures Working() && old(log) < log
      ensures St() == if err then Stop(cr.id, Errored, memo) else At(cr, EsPut(conn.endpoint, Raw), memo)
    {
      var auth := Do(GetSecret(cr.id.ns, conn.authSecret));
      if !auth.FoundSecret? || !HasLogin(auth.secret) {
        return true;
      }
      if conn.certSecret != "" {
        var cert := Do(GetSecret(cr.id.ns, conn.certSecret));
        return !cert.FoundSecret? || !HasCa(cert.secret);
      }
      return false;
    }

    /** `initializeElasticsearchIndices`, with the verdict of `doRequest` on each answer. */
    method InitializeElasticsearchIndices(cr: CR, ghost memo: Memo) returns (ghost memo': Memo, err: bool)
      requires Working() && St() == At(cr, EsInfo, memo)
      modifies this`world, this`sys, this`log
      ensures Working() && old(log) < log
      ensures St() == if err then Stop(cr.id, Errored, memo) else At(cr, Look(EventProcessingTask, NoReading), memo')
    {
      memo' := memo;
      var endpoint;
      endpoint, err := GetElasticsearchInfo(cr, memo);
      if err {
        return;
      }
      var put := Do(PutIndex(endpoint, Raw));
      if !put.HttpReply? || !Accepted(put.http) {
        return memo, true;
      }
      put := Do(PutIndex(endpoint, Risk));
      return memo.(es := Some(endpoint)), !put.HttpReply? || !Accepted(put.http);
    }

    /** `getPredictorURL`; its only caller drops the error, so none is returned. The URL is the endpoint in the status
        that the call was answered with, if its Ready condition is True. */
    method GetPredictorUrl(cr: CR, ghost seen: Seen, ghost memo: Memo) returns (url: string)
      requires Working() && St() == At(cr, Predict(seen), memo)
      modifies this`world, this`sys, this`log
      ensures Working() && old(log) < log
      ensures var answer := sys.workers[me].answer;
              url == if answer.Some? && answer.value.ready.Some? && answer.value.ready.value.status.ConditionTrue?
                     then answer.value.endpoint else ""
      ensures St() == match seen
                      case SeenObject => Ensured(cfg, old(St()), EventProcessingTask)
                      case SeenNothing => At(cr, Make(EventProcessingTask, Predictor(url)), memo)
                      case SeenError => Stop(cr.id, Errored, memo)
    {
      var r := Do(Get(Key(AIDeployment, cr.id.ns)));
      if r.Found? && r.obj.status.ready.Some? && r.obj.status.ready.value.status.ConditionTrue? {
        return r.obj.status.endpoint;
      }
      return "";
    }

    /** `reconcileEventProcessingTask`: the predictor URL is asked for whether or not the task is there. */
    method ReconcileEventProcessingTask(cr: CR, ghost memo: Memo) returns (err: bool)
      requires Working() && St() == At(cr, Look(EventProcessingTask, NoReading), memo)
      modifies this`world, this`sys, this`log
      ensures Working() && old(log) < log
      ensures St() == if err then Stop(cr.id, Errored, memo) else Ensured(cfg, old(St()), EventProcessingTask)
    {
      var existing := Do(Get(Key(EventProcessingTask, cr.id.ns)));
      ghost var seen := if existing.Found? then SeenObject else if existing.NotFound? then SeenNothing else SeenError;
      var url := GetPredictorUrl(cr, seen, memo);
      if existing.NotFound? {
        err := CreateObject(cr, EventProcessingTask, NewObject(cfg, cr, EventProcessingTask, Predictor(url)),
          Predictor(url), memo);
        return err;
      }
      return !existing.Found?;
    }

    // ---------- Knative and the microservices ----------

    /** `reconcileKnative`. */
    method ReconcileKnative(cr: CR, ghost memo: Memo) returns (err: bool)
      requires Working() && St() == At(cr, KafkaInfo(ForKnative), memo)
      modifies this`world, this`sys, this`log
      ensures Working() && old(log) < log
      ensures St() == if err then Stop(cr.id, Errored, memo) else At(cr, KafkaInfo(ForApp(Producer)), memo)
    {
      var r := Do(Get(Key(CartridgeRequirements, cr.id.ns)));
      if !r.Found? || r.obj.status.components.None? || r.obj.status.components.value.kafka.None? {
        return true;
      }
      var bootstrap := FindPlain(r.obj.status.components.value.kafka.value);
      err := CreateKnativeTrio(cr, bootstrap, memo);
    }

    method CreateKnativeTrio(cr: CR, bootstrap: string, ghost memo: Memo) returns (err: bool)
      requires Working() && St() == At(cr, Look(KafkaSource, Bootstrap(bootstrap)), memo)
      modifies this`world, this`sys, this`log
      ensures Working() && old(log) < log
      ensures St() == if err then Stop(cr.id, Errored, memo) else At(cr, KafkaInfo(ForApp(Producer)), memo)
    {
      err := CreateIfAbsent(cr, KafkaSource, Bootstrap(bootstrap), memo);
      if !err {
        err := CreateIfAbsent(cr, InMemoryChannel, NoReading, memo);
      }
      if !err {
        err := CreateIfAbsent(cr, Subscription, NoReading, memo);
      }
    }

    /** `reconcileMicroservice`. */
    method ReconcileMicroservice(cr: CR, a: App, ghost memo: Memo) returns (err: bool, panicked: bool)
      requires Working() && Bundled() && St() == At(cr, KafkaInfo(ForApp(a)), memo)
      modifies this`world, this`sys, this`log
      ensures Working() && old(log) < log
      ensures St() == if panicked then Stop(cr.id, Panicked, memo) else if err then Stop(cr.id, Errored, memo)
                      else Ensured(cfg, old(St()), Route(a))
    {
      panicked := false;
      var r := Do(Get(Key(CartridgeRequirements, cr.id.ns)));
      if !r.Found? || r.obj.status.components.None? || r.obj.status.components.value.kafka.None? {
        return true, false;
      }
      var eps := r.obj.status.components.value.kafka.value;
      var env, found, broken := BuildEnv(cr, a, eps);
      if broken {
        return false, true;
      }
      if !found {
        return true, false;
      }
      err := CreateApp(cr, a, FirstTls(eps).value, env, memo);
    }

    /** The Deployment with the environment put together, the Service and the Route. */
    method CreateApp(cr: CR, a: App, ghost tls: KafkaEndpoint, env: seq<EnvVar>, ghost memo: Memo) returns (err: bool)
      requires Working() && Bundled() && env == DeploymentEnv(cr, a, Listener(tls))
      requires St() == At(cr, Look(Deployment(a), Listener(tls)), memo)
      modifies this`world, this`sys, this`log
      ensures Working() && old(log) < log
      ensures St() == if err then Stop(cr.id, Errored, memo) else Ensured(cfg, old(St()), Route(a))
    {
      err := CreateDeployment(cr, a, tls, env, memo);
      if !err {
        err := CreateIfAbsent(cr, Service(a), NoReading, memo);
      }
      if !err {
        err := CreateIfAbsent(cr, Route(a), NoReading, memo);
      }
    }

    lemma DeploymentObject(cr: CR, a: App, tls: KafkaEndpoint)
      requires Bundled()
      ensures NewObject(cfg, cr, Deployment(a), Listener(tls))
              == Object(DeploymentSpec(images.server, ShortName(a), DeploymentEnv(cr, a, Listener(tls))),
                Some(OwnerOf(cr)), EMPTY_STATUS)
    {
    }

    method CreateDeployment(cr: CR, a: App, ghost tls: KafkaEndpoint, env: seq<EnvVar>, ghost memo: Memo)
        returns (err: bool)
      requires Working() && Bundled() && env == DeploymentEnv(cr, a, Listener(tls))
      requires St() == At(cr, Look(Deployment(a), Listener(tls)), memo)
      modifies this`world, this`sys, this`log
      ensures Working() && old(log) < log
      ensures St() == if err then Stop(cr.id, Errored, memo) else At(cr, Look(Service(a), NoReading), memo)
    {
      DeploymentObject(cr, a, tls);
      var deployment := Object(DeploymentSpec(images.server, ShortName(a), env), Some(OwnerOf(cr)), EMPTY_STATUS);
      err := Ensure(cr, Deployment(a), deployment, Listener(tls), memo);
    }

    // ---------- Reconcile ----------

    /** The three Ready gates. */
    method OpenGates(cr: CR) returns (ended: Option<Ended>)
      requires Working() && St() == At(cr, Look(Cartridge, NoReading), BLANK)
      modifies this`world, this`sys, this`log
      ensures Working() && old(log) < log
      ensures if ended.Some? then Ends(cr.id, ended.value) else St() == At(cr, AiSecret, BLANK)
    {
      var retryAfter, err := CreateGate(cr, Cartridge, BLANK);
      if !err && !retryAfter {
        retryAfter, err := CreateGate(cr, AutomationBase, BLANK);
      }
      if !err && !retryAfter {
        retryAfter, err := CreateGate(cr, CartridgeRequirements, BLANK);
      }
      return if err then Some(FAILURE) else if retryAfter then Some(REQUEUE) else None;
    }

    /** From the AI stage to the EventProcessor. An error of the AI stage is logged and forgotten. */
    method PrepareProcessing(cr: CR) returns (ended: Option<Ended>, ghost memo: Memo)
      requires Working() && St() == At(cr, AiSecret, BLANK)
      modifies this`world, this`sys, this`log
      ensures Working() && old(log) < log
      ensures if ended.Some? then Ends(cr.id, ended.value) else St() == At(cr, EsInfo, memo)
    {
      memo := BLANK;
      var retryAfter, err := SetupAIModels(cr, BLANK);
      if retryAfter {
        return Some(REQUEUE), memo;
      }
      memo := BLANK.(aiClean := !err);
      err := CreateStreams(cr, memo);
      return if err then Some(FAILURE) else None, memo;
    }

    /** The two topics and the EventProcessor. */
    method CreateStreams(cr: CR, ghost memo: Memo) returns (err: bool)
      requires Working() && St() == At(cr, Look(KafkaTopic(Raw), NoReading), memo)
      modifies this`world, this`sys, this`log
      ensures Working() && old(log) < log
      ensures St() == if err then Stop(cr.id, Errored, memo) else At(cr, EsInfo, memo)
    {
      err := CreateEventStream(cr, Raw, memo);
      if !err {
        err := CreateEventStream(cr, Risk, memo);
      }
      if !err {
        err := CreateIfAbsent(cr, EventProcessor, NoReading, memo);
      }
    }

    /** Indices, task, Knative and the two microservices. */
    method Deploy(cr: CR, ghost before: Memo) returns (ended: Ended)
      requires Working() && Bundled() && St() == At(cr, EsInfo, before)
      modifies this`world, this`sys, this`log
      ensures Working() && old(log) < log && Ends(cr.id, ended)
    {
      ghost var memo;
      var err;
      memo, err := InitializeElasticsearchIndices(cr, before);
      if err {
        return FAILURE;
      }
      err := ReconcileEventProcessingTask(cr, memo);
      if err {
        return FAILURE;
      }
      if EqualFold(cfg.useKnative, "true") {
        err := ReconcileKnative(cr, memo);
        if err {
          return FAILURE;
        }
      }
      ended := DeployApps(cr, memo);
    }

    method DeployApps(cr: CR, ghost memo: Memo) returns (ended: Ended)
      requires Working() && Bundled() && St() == At(cr, KafkaInfo(ForApp(Producer)), memo)
      modifies this`world, this`sys, this`log
      ensures Working() && old(log) < log && Ends(cr.id, ended)
    {
      var err, panicked := ReconcileMicroservice(cr, Producer, memo);
      if !err && !panicked {
        err, panicked := ReconcileMicroservice(cr, Server, memo);
      }
      return if panicked then Panic else if err then FAILURE else SUCCESS;
    }

    /** This reconciler's pass has ended after it had found its custom resource, and comes back accordingly. */
    ghost predicate Ends(id: CRName, ended: Ended)
      requires me in sys.workers
      reads this
    {
      St().Stop? && St().id == id && !St().outcome.Died? && !St().outcome.Ignored? && ended == EndOf(St().outcome)
    }

    /** The worker begins a pass. */
    ghost method Start(id: CRName)
      requires Valid() && !Busy(sys, me)
      modifies this`sys, this`log
      ensures Working() && St() == Fetch(id) && log == old(log) + [Begin(me, id)]
    {
      Passes.OneStep(cfg, sys, Begin(me, id));
      RunConcat(cfg, start, log, [Begin(me, id)]);
      sys := Apply(cfg, sys, Begin(me, id));
      log := log + [Begin(me, id)];
    }

    /** The steps taken since the pass began, by everyone. */
    ghost function Since(before: seq<Step>): seq<Step>
      requires before <= log
      reads this
    {
      log[|before|..]
    }

    /** `Reconcile`. However the others interfere, the whole execution is a run of the system in which this pass ends
        as it comes back: with an error exactly if it failed, with a delay of thirty seconds exactly if it must wait. If
        it comes back with neither, then either there is no custom resource, or it has left out nothing, whatever had
        happened before and whoever else was at work: every mandatory object and both indices are there, but for what
        somebody has deleted since it began. */
    method Reconcile(id: CRName) returns (ended: Ended)
      requires Valid() && Bundled() && !Busy(sys, me)
      modifies this`world, this`sys, this`log
      ensures Working() && old(log) < log && St().Stop? && St().id == id
      ensures System.Valid(cfg, old(sys), Since(old(log))) && Run(cfg, old(sys), Since(old(log))) == sys
      ensures ended.Returned? && ended.err <==> St().outcome.Errored?
      ensures ended.Returned? && ended.requeueAfter == 30 && !ended.err <==> St().outcome.Requeued?
      ensures ended.Panic? <==> St().outcome.Panicked?
      ensures ended == Returned(0, false) <==> St().outcome.Succeeded? || St().outcome.Ignored?
      ensures ended == Returned(0, false) ==> Complete(old(sys), sys, id.ns, St().memo) || id !in world.crs
      ensures St().outcome.Succeeded? ==> Complete(old(sys), sys, id.ns, St().memo)
      ensures St().outcome.Succeeded? && Gentle(cfg, old(sys), Since(old(log))) ==>
                && (forall a :: Mandatory(cfg, a) ==> Key(a, id.ns) in world.objects)
                && BothIndices(world, St().memo)
    {
      ghost var sys0, log0 := sys, log;
      Start(id);
      ended := ReconcileStages(id);
      ghost var steps := Since(log0);
      assert log == log0 + steps;
      RunSplit(cfg, start, log0, steps);
      LeftOutNothing(sys0, steps);
    }

    /** Every mandatory object of the namespace and both indices are there or have been deleted meanwhile. */
    ghost predicate Complete(before: Sys, now: Sys, ns: string, memo: Memo) {
      && (forall a :: Mandatory(cfg, a) ==>
           Key(a, ns) in now.w.objects || now.h.deletes[Key(a, ns)] > before.h.deletes[Key(a, ns)])
      && memo.es.Some?
      && (forall t: Topic ::
           (memo.es.value, t) in now.w.indices
             || now.h.dropped[(memo.es.value, t)] > before.h.dropped[(memo.es.value, t)])
    }

    lemma {:induction false} LeftOutNothing(s: Sys, steps: seq<Step>)
      requires |steps| > 0 && steps[0].Begin? && steps[0].r == me && System.Valid(cfg, s, steps)
      ensures var s' := Run(cfg, s, steps);
              Succeeds(s', me) ==>
                && Complete(s, s', s'.workers[me].st.id.ns, s'.workers[me].st.memo)
                && (Gentle(cfg, s, steps) ==>
                     && (forall a :: Mandatory(cfg, a) ==> Key(a, s'.workers[me].st.id.ns) in s'.w.objects)
                     && BothIndices(s'.w, s'.workers[me].st.memo))
    {
      var s1 := Apply(cfg, s, steps[0]);
      SuccessUnlessDeleted(cfg, s1, steps[1..], me);
      if Gentle(cfg, s, steps) { SuccessIsComplete(cfg, s1, steps[1..], me); }
    }

    method ReconcileStages(id: CRName) returns (ended: Ended)
      requires Working() && Bundled() && St() == Fetch(id)
      modifies this`world, this`sys, this`log
      ensures Working() && old(log) < log
      ensures Ends(id, ended) || (St() == Stop(id, Ignored, BLANK) && ended == SUCCESS && id !in world.crs)
    {
      var r := Do(GetCR(id));
      if !r.FoundCR? {
        return if r.NotFound? then SUCCESS else FAILURE;
      }
      var done := OpenGates(r.cr);
      if done.Some? {
        return done.value;
      }
      ghost var memo;
      done, memo := PrepareProcessing(r.cr);
      if done.Some? {
        return done.value;
      }
      ended := Deploy(r.cr, memo);
    }
  }
}

/** What a pass makes of the answer at each place where it decides on what the answer says, in the terms of the API. */
module Decisions {
  import opened Options
  import opened Store
  import opened Endpoints
  import opened Protocol

  const FIRST_TOPIC := Look(KafkaTopic(Raw), NoReading)

  /** A pass starts with the custom resource, ends at once without one, and fails on any other answer. */
  lemma ResourceDecides(cfg: Config, st: Worker, r: Reply)
    requires st.Fetch?
    ensures Request(cfg, st) == GetCR(st.id)
    ensures var st' := Resume(cfg, st, r);
            if r.FoundCR? then st' == At(r.cr, Look(Cartridge, NoReading), Memo(false, None))
            else st' == Stop(st.id, if r.NotFound? then Ignored else Errored, Memo(false, None))
  {
  }

  /** An object is looked for under its key, made with the custom resource as its controller if it is not found, and
      taken as it is if it is; the task is looked for, too, but the pass asks for the predictor URL in any case before
      it acts on the answer. A creation must succeed: even an object that has come into being since is an error. */
  lemma EnsureDecides(cfg: Config, st: Worker, r: Reply)
    requires st.At? && (st.pc.Look? || st.pc.Make?)
    ensures var s, rd, key := st.pc.slot, st.pc.reading, Key(st.pc.slot, st.cr.id.ns);
            && (st.pc.Look? ==> Request(cfg, st) == Get(key))
            && (st.pc.Make? ==> Request(cfg, st) == Create(key, Object(cfg.blueprint(st.cr, s, rd),
                                    Some(Owner(st.cr.id, st.cr.uid)), Status(None, "", None))))
    ensures var st', s := Resume(cfg, st, r), st.pc.slot;
            if st.pc.Make? then st' == if r.Done? then Ensured(cfg, st, s) else Stop(st.cr.id, Errored, st.memo)
            else if s.EventProcessingTask? then
              st' == st.(pc := Predict(if r.Found? then SeenObject else if r.NotFound? then SeenNothing else SeenError))
            else st' == if r.Found? then Ensured(cfg, st, s) else if r.NotFound? then st.(pc := Make(s, st.pc.reading))
                        else Stop(st.cr.id, Errored, st.memo)
  {
  }

  /** A topic that is ensured is read again, and found or not; nothing else is asked of it. */
  lemma TopicDecides(cfg: Config, st: Worker, r: Reply)
    requires st.At? && st.pc.Reread? && st.pc.slot.KafkaTopic?
    ensures Request(cfg, st) == Get(Key(st.pc.slot, st.cr.id.ns))
    ensures Resume(cfg, st, r)
            == if !r.Found? then Stop(st.cr.id, Errored, st.memo)
               else st.(pc := Look(if st.pc.slot.topic.Raw? then KafkaTopic(Risk) else EventProcessor, NoReading))
  {
  }

  /** A gate opens exactly if its Ready condition is True. */
  lemma GateDecides(cfg: Config, st: Worker, r: Reply)
    requires st.At? && st.pc.Reread? && st.pc.slot in {Cartridge, AutomationBase, CartridgeRequirements}
    ensures var st' := Resume(cfg, st, r);
            && (st'.At? <==> r.Found? && r.obj.status.ready.Some? && r.obj.status.ready.value.status.ConditionTrue?)
            && (st'.Stop? && st'.outcome.Errored? <==> !r.Found?)
  {
  }

  /** The model store is asked exactly if the storage secret has both keys and the endpoint, which loses one newline at
      its end; otherwise the AI stage is over. */
  lemma StorageSecretDecides(cfg: Config, st: Worker, r: Reply)
    requires st.At? && st.pc.AiSecret?
    ensures Request(cfg, st) == GetSecret(st.cr.id.ns, "minio-secret")
    ensures var st' := Resume(cfg, st, r);
            if r.FoundSecret? && "AWS_ACCESS_KEY_ID" in r.secret.data && "AWS_SECRET_ACCESS_KEY" in r.secret.data
               && "serving.kubeflow.org/s3-endpoint" in r.secret.annotations then
              var a := r.secret.annotations["serving.kubeflow.org/s3-endpoint"];
              && st'.At? && st'.pc.AiBucketQuery?
              && (if |a| > 0 && a[|a| - 1] == '\n' then a == st'.pc.minio + "\n" else a == st'.pc.minio)
            else st' == At(st.cr, FIRST_TOPIC, st.memo.(aiClean := false))
  {
  }

  /** Only a bucket that was not there is made, and only behind a bucket made here are the models uploaded, one behind
      the other; any trouble with the store ends the AI stage and nothing more. */
  lemma StoreDecides(cfg: Config, st: Worker, r: Reply)
    requires st.At? && (st.pc.AiBucketQuery? || st.pc.AiMakeBucket? || st.pc.AiUpload?)
    requires st.pc.AiUpload? ==> st.pc.i < |cfg.models|
    ensures Request(cfg, st) == if st.pc.AiBucketQuery? then BucketExists(st.pc.minio)
                                else if st.pc.AiMakeBucket? then MakeBucket(st.pc.minio)
                                else PutObject(st.pc.minio, cfg.models[st.pc.i])
    ensures var st', m := Resume(cfg, st, r), st.pc.minio;
            var done: nat := if st.pc.AiUpload? then st.pc.i + 1 else 0;
            if !(if st.pc.AiBucketQuery? then r.Answer? else r.Done?)
            then st' == At(st.cr, FIRST_TOPIC, st.memo.(aiClean := false))
            else if st.pc.AiBucketQuery? && !r.yes then st' == st.(pc := AiMakeBucket(m))
            else if st.pc.AiBucketQuery? || done == |cfg.models| then st' == st.(pc := AiStatus)
            else st' == st.(pc := AiUpload(m, done))
  {
  }

  /** The trio is made only if the AIDeployment is not there, in its order and whether or not its members are there;
      behind it the pass waits, and any trouble ends the AI stage and nothing more. */
  lemma TrioDecides(cfg: Config, st: Worker, r: Reply)
    requires st.At? && ((st.pc.AiStatus? && !r.Found?) || st.pc.AiCreate?)
    ensures var st' := Resume(cfg, st, r);
            if !(if st.pc.AiStatus? then r.NotFound? else r.Done? || r.AlreadyExists?)
            then st' == At(st.cr, FIRST_TOPIC, st.memo.(aiClean := false))
            else if st.pc.AiStatus? then st' == st.(pc := AiKfSecret)
            else if st.pc.slot.AIRuntime? then st' == st.(pc := AiCreate(AIModel))
            else if st.pc.slot.AIModel? then st' == st.(pc := AiCreate(AIDeployment))
            else st' == Stop(st.cr.id, Requeued, st.memo)
  {
  }

  /** An AIDeployment that is there sends the pass back to wait as long as its Ready condition is missing, Unknown or
      Pending. In every other case the pass goes on to the topics, and the AI stage was clean exactly if the condition
      is True and there is an endpoint: a failed AIDeployment does not block. */
  lemma AiStatusDecides(cfg: Config, st: Worker, r: Reply)
    requires st.At? && st.pc.AiStatus? && r.Found?
    ensures var st', ready := Resume(cfg, st, r), r.obj.status.ready;
            if ready.None? || ready.value.status.ConditionUnknown? || EqualFold(ready.value.reason, "Pending")
            then st' == Stop(st.cr.id, Requeued, st.memo)
            else st' == At(st.cr, FIRST_TOPIC,
                           st.memo.(aiClean := ready.value.status.ConditionTrue? && r.obj.status.endpoint != ""))
  {
  }

  /** The trio is made exactly if the serving secret is there. */
  lemma ServingSecretDecides(cfg: Config, st: Worker, r: Reply)
    requires st.At? && st.pc.AiKfSecret?
    ensures Request(cfg, st) == GetSecret(st.cr.id.ns, "kfserving-secret")
    ensures var st' := Resume(cfg, st, r);
            if r.FoundSecret? then st' == st.(pc := AiCreate(AIRuntime))
            else st' == At(st.cr, FIRST_TOPIC, st.memo.(aiClean := false))
  {
  }

  /** Position i holds the last internal endpoint. */
  ghost predicate LastInternal(eps: seq<EsEndpoint>, i: nat) {
    i < |eps| && eps[i].scope.Internal? && forall j :: i < j < |eps| ==> !eps[j].scope.Internal?
  }

  /** The pass goes on exactly with the address of the last internal Elasticsearch endpoint, if that is not empty, and
      asks for the login secret of the last internal endpoint that names one. */
  lemma EsStatusDecides(cfg: Config, st: Worker, r: Reply, i: nat)
    requires st.At? && st.pc.EsInfo?
    ensures var st' := Resume(cfg, st, r);
            && (!r.Found? || r.obj.status.components.None? || r.obj.status.components.value.elasticSearch.None? ==>
                 st' == Stop(st.cr.id, Errored, st.memo))
            && (r.Found? && r.obj.status.components.Some? && r.obj.status.components.value.elasticSearch.Some? ==>
                 var eps := r.obj.status.components.value.elasticSearch.value;
                 && ((forall e :: e in eps ==> !e.scope.Internal?) ==> st' == Stop(st.cr.id, Errored, st.memo))
                 && (LastInternal(eps, i) ==>
                      if eps[i].uri == "" then st' == Stop(st.cr.id, Errored, st.memo)
                      else st'.At? && st'.pc.EsAuth? && st'.pc.conn.endpoint == eps[i].uri))
  {
    if r.Found? && r.obj.status.components.Some? && r.obj.status.components.value.elasticSearch.Some? {
      ScanEsIsLast(r.obj.status.components.value.elasticSearch.value, i);
    }
  }

  lemma EsSecretsAreAnnounced(cfg: Config, st: Worker, r: Reply, i: nat)
    requires st.At? && st.pc.EsInfo? && Resume(cfg, st, r).At?
    ensures var eps, conn := r.obj.status.components.value.elasticSearch.value, Resume(cfg, st, r).pc.conn;
            && Request(cfg, Resume(cfg, st, r)) == GetSecret(st.cr.id.ns, conn.authSecret)
            && (i < |eps| && eps[i].scope.Internal? && eps[i].authentication.Some?
                && eps[i].authentication.value.secret.Some?
                && (forall j :: i < j < |eps| && eps[j].scope.Internal? ==>
                     eps[j].authentication.None? || eps[j].authentication.value.secret.None?) ==>
                 conn.authSecret == eps[i].authentication.value.secret.value.secretName)
            && (i < |eps| && eps[i].scope.Internal? && eps[i].caSecret.Some?
                && (forall j :: i < j < |eps| && eps[j].scope.Internal? ==> eps[j].caSecret.None?) ==>
                 conn.certSecret == eps[i].caSecret.value.secretName)
            && ((forall e :: e in eps && e.scope.Internal? ==> e.caSecret.None?) ==> conn.certSecret == "")
  {
    ScanEsIsLast(r.obj.status.components.value.elasticSearch.value, i);
  }

  /** The login secret must have both keys, and a named certificate secret its certificate. */
  lemma EsSecretsDecide(cfg: Config, st: Worker, r: Reply)
    requires st.At? && (st.pc.EsAuth? || st.pc.EsCert?)
    ensures var st', conn := Resume(cfg, st, r), st.pc.conn;
            var good := r.FoundSecret? && if st.pc.EsAuth? then "username" in r.secret.data
              && "password" in r.secret.data
                                          else "ca.crt" in r.secret.data;
            if !good then st' == Stop(st.cr.id, Errored, st.memo)
            else if st.pc.EsAuth? && conn.certSecret != "" then st' == st.(pc := EsCert(conn))
            else st' == st.(pc := EsPut(conn.endpoint, Raw))
  {
  }

  /** An index request is accepted exactly if it is answered with 200, or with the error that the index is there
      already; both indices are requested, the raw one first. */
  lemma IndexAnswerDecides(cfg: Config, st: Worker, r: Reply)
    requires st.At? && st.pc.EsPut?
    ensures Request(cfg, st) == PutIndex(st.pc.es, st.pc.topic)
    ensures var st' := Resume(cfg, st, r);
            var good := r.HttpReply?
              && (r.http.code == 200 || r.http.errorType == Some("resource_already_exists_exception"));
            if !good then st' == Stop(st.cr.id, Errored, st.memo)
            else if st.pc.topic.Raw? then st' == st.(pc := EsPut(st.pc.es, Risk))
            else st' == At(st.cr, Look(EventProcessingTask, NoReading), st.memo.(es := Some(st.pc.es)))
  {
  }

  /** Knative is given the last plain listener; the microservices need a TLS listener, and a nil pointer is followed
      exactly if the first one lacks its certificate or its login. */
  lemma KafkaStatusDecides(cfg: Config, st: Worker, r: Reply, i: nat)
    requires st.At? && st.pc.KafkaInfo? && r.Found? && r.obj.status.components.Some?
    requires r.obj.status.components.value.kafka.Some?
    ensures var st', eps := Resume(cfg, st, r), r.obj.status.components.value.kafka.value;
            if st.pc.user.ForKnative? then
              && st'.At? && st'.pc.Look? && st'.pc.slot.KafkaSource? && st'.pc.reading.Bootstrap?
              && ((forall e :: e in eps ==> e.name != "internal-service-plain") ==> st'.pc.reading.servers == "")
              && (i < |eps| && eps[i].name == "internal-service-plain"
                  && (forall j :: i < j < |eps| ==> eps[j].name != "internal-service-plain") ==>
                   st'.pc.reading.servers == eps[i].bootstrapServers)
            else
              && ((forall e :: e in eps ==> e.name != "internal-service-tls")
                  ==> st' == Stop(st.cr.id, Errored, st.memo))
              && (i < |eps| && eps[i].name == "internal-service-tls"
                  && (forall j :: 0 <= j < i ==> eps[j].name != "internal-service-tls") ==>
                   if eps[i].caSecret.None? || eps[i].authentication.None? || eps[i].authentication.value.secret.None?
                   then st' == Stop(st.cr.id, Panicked, st.memo)
                   else st' == st.(pc := Look(Deployment(st.pc.user.app), Listener(eps[i]))))
  {
    var eps := r.obj.status.components.value.kafka.value;
    LastPlainIsLast(eps, i);
    FirstTlsIsFirst(eps);
  }

  lemma NoKafkaDecides(cfg: Config, st: Worker, r: Reply)
    requires st.At? && st.pc.KafkaInfo?
    requires !r.Found? || r.obj.status.components.None? || r.obj.status.components.value.kafka.None?
    ensures Resume(cfg, st, r) == Stop(st.cr.id, Errored, st.memo)
  {
  }

  /** The answer about the AIDeployment never stops the pass: the task that was not found is made with the endpoint of a
      Ready one and with the empty URL otherwise, and the task that could not be looked for is an error. */
  lemma PredictionDecides(cfg: Config, st: Worker, r: Reply)
    requires st.At? && st.pc.Predict?
    ensures Request(cfg, st) == Get(Key(AIDeployment, st.cr.id.ns))
    ensures var st' := Resume(cfg, st, r);
            var ready := r.Found? && r.obj.status.ready.Some? && r.obj.status.ready.value.status.ConditionTrue?;
            if st.pc.seen.SeenError? then st' == Stop(st.cr.id, Errored, st.memo)
            else if st.pc.seen.SeenNothing? then
              st' == st.(pc := Make(EventProcessingTask, Predictor(if ready then r.obj.status.endpoint else "")))
            else st' == Ensured(cfg, st, EventProcessingTask)
  {
  }

  /** Behind the task the pass turns to Knative exactly if the setting reads "true" in any mix of cases. */
  lemma KnativeSwitch(cfg: Config, st: Worker)
    requires st.At?
    ensures var u := cfg.useKnative;
            var on := |u| == 4 && u[0] in {'t', 'T'} && u[1] in {'r', 'R'} && u[2] in {'u', 'U'} && u[3] in {'e', 'E'};
            && (KnativeOn(cfg) <==> on)
            && Ensured(cfg, st, EventProcessingTask)
               == st.(pc := KafkaInfo(if on then ForKnative else ForApp(Producer)))
  {
    FoldsByCase(cfg.useKnative, "true");
  }
}

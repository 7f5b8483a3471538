/** The specs of the objects that the reconciler makes. */
module Manifests {
  import opened Store
  import opened Endpoints
  import opened Protocol

  datatype Images = Images(server: string, eventProcessor: string, eventProcessingTask: string)

  const VERSION := "1.0.0"
  const SERVICE_ACCOUNT := "iaf-eventprocessing-operator-default"
  const GROUP := "iafdemo-flink-processor"
  const PORT := 8080

  /** The name of an application's container: its name without the first "demo". */
  function ShortName(a: App): string { if a.Producer? then "producer" else "server" }

  /** The program arguments that every task starts with. */
  function BaseArgs(): string {
    "?program-args=--groupId " + GROUP + " --rawTopic " + TopicName(Raw) + " --riskTopic " + TopicName(Risk)
    + " --esRawIndex " + TopicName(Raw) + " --esRiskIndex " + TopicName(Risk)
  }

  function ProgramArgs(url: string): string {
    if |url| > 0 then BaseArgs() + " --modelPredictorURL " + url else BaseArgs()
  }

  function TaskArgs(url: string): seq<string> {
    ["-j", "/opt/flink/demo/demo-flink-job-1.0-SNAPSHOT.jar", "-q", ProgramArgs(url)]
  }

  function FixedEnv(cr: CR, a: App): seq<EnvVar> {
    [Plain("FUNCTION", ShortName(a)), Plain("KAFKA_TOPIC", TopicName(Raw)),
     Plain("MESSAGES_PER_GROUP", cr.messagesPerGroup), Plain("SECONDS_TO_PAUSE", cr.secondsToPause),
     Plain("SAMPLE_REPITITIONS", cr.sequenceRepititions)]
  }

  function CaEnv(e: KafkaEndpoint): seq<EnvVar>
    requires Dereferenceable(e)
  {
    if |e.caSecret.value.secretName| > 0
    then [FromSecret("KAFKA_CA_CERT_PEM", e.caSecret.value.secretName, e.caSecret.value.key)] else []
  }

  function LoginEnv(e: KafkaEndpoint): seq<EnvVar>
    requires Dereferenceable(e)
  {
    var name := e.authentication.value.secret.value.secretName;
    if |name| > 0 then [Plain("KAFKA_USERNAME", name), FromSecret("KAFKA_PASSWORD", name, "password")] else []
  }

  function ListenerEnv(e: KafkaEndpoint): seq<EnvVar>
    requires Dereferenceable(e)
  {
    [Plain("BOOTSTRAP_SERVERS", e.bootstrapServers)] + CaEnv(e) + LoginEnv(e)
  }

  function DeploymentEnv(cr: CR, a: App, rd: Reading): seq<EnvVar> {
    FixedEnv(cr, a) + (if rd.Listener? && Dereferenceable(rd.endpoint) then ListenerEnv(rd.endpoint) else [])
  }

  function Manifest(images: Images, cr: CR, s: Slot, rd: Reading): Spec {
    match s
    case Cartridge => CartridgeSpec(VERSION, cr.accept)
    case AutomationBase => AutomationBaseSpec(VERSION, cr.accept)
    case CartridgeRequirements => CartridgeRequirementsSpec(VERSION, cr.accept, Name(Cartridge),
      ["EventProcessors", "Events"])
    case AIRuntime => AIRuntimeSpec(VERSION, cr.accept, "serving", "kfserving", KF_SECRET)
    case AIModel => AIModelSpec(VERSION, cr.accept, "tensorflow", "github-secret", MINIO_SECRET)
    case AIDeployment => AIDeploymentSpec(VERSION, cr.accept, Name(AIRuntime), Name(AIModel), VERSION)
    case KafkaTopic(_) => KafkaTopicSpec("iaf-system", 1, 1, 604800000, 1073741824)
    case EventProcessor => EventProcessorSpec(VERSION, cr.accept, images.eventProcessor, SERVICE_ACCOUNT, 1)
    case EventProcessingTask =>
      EventProcessingTaskSpec(VERSION, cr.accept, Name(EventProcessor), images.eventProcessingTask,
                              TaskArgs(if rd.Predictor? then rd.url else ""))
    case KafkaSource => KafkaSourceSpec([if rd.Bootstrap? then rd.servers else ""], [TopicName(Risk)], Name(s),
      Name(InMemoryChannel))
    case InMemoryChannel => InMemoryChannelSpec
    case Subscription => SubscriptionSpec(Name(InMemoryChannel), Name(Service(Server)))
    case Deployment(a) => DeploymentSpec(images.server, ShortName(a), DeploymentEnv(cr, a, rd))
    case Service(_) => ServiceSpec(80, PORT)
    case Route(a) => RouteSpec(PORT, Name(Service(a)))
  }

  function Blueprint(images: Images): (CR, Slot, Reading) -> Spec {
    (cr: CR, s: Slot, rd: Reading) => Manifest(images, cr, s, rd)
  }

  /** Tasks built for the same custom resource with different predictor URLs have the same spec but for the last
      argument, and that is the common base followed by the URL's own suffix. */
  lemma TasksDifferInSuffix(images: Images, cr: CR, u1: string, u2: string)
    ensures var t1 := Manifest(images, cr, EventProcessingTask, Predictor(u1));
            var t2 := Manifest(images, cr, EventProcessingTask, Predictor(u2));
            && t1.(args := t2.args) == t2
            && |t1.args| == 4 && t1.args[..3] == t2.args[..3]
            && BaseArgs() <= t1.args[3] && BaseArgs() <= t2.args[3]
            && t1.args[3][|BaseArgs()|..] == if u1 == "" then "" else " --modelPredictorURL " + u1
  {
    var base, more := BaseArgs(), " --modelPredictorURL " + u1;
    assert base + " --modelPredictorURL " + u1 == base + more;
    assert (base + more)[|base|..] == more;
  }

  lemma InConcat<T>(x: T, a: seq<T>, b: seq<T>)
    ensures x in a + b <==> x in a || x in b
  {
  }

  /** The environment of a microservice behind a TLS listener, variable by variable. */
  lemma EnvIsExactly(cr: CR, a: App, e: KafkaEndpoint, v: EnvVar)
    requires e.caSecret.Some? && e.authentication.Some? && e.authentication.value.secret.Some?
    ensures var ca, login := e.caSecret.value, e.authentication.value.secret.value.secretName;
            v in DeploymentEnv(cr, a, Listener(e)) <==>
              || v == Plain("FUNCTION", if a.Producer? then "producer" else "server")
              || v == Plain("KAFKA_TOPIC", "iafdemo-raw")
              || v == Plain("MESSAGES_PER_GROUP", cr.messagesPerGroup)
              || v == Plain("SECONDS_TO_PAUSE", cr.secondsToPause)
              || v == Plain("SAMPLE_REPITITIONS", cr.sequenceRepititions)
              || v == Plain("BOOTSTRAP_SERVERS", e.bootstrapServers)
              || (ca.secretName != "" && v == FromSecret("KAFKA_CA_CERT_PEM", ca.secretName, ca.key))
              || (login != "" && v in {Plain("KAFKA_USERNAME", login), FromSecret("KAFKA_PASSWORD", login, "password")})
  {
    var bootstrap := [Plain("BOOTSTRAP_SERVERS", e.bootstrapServers)];
    InConcat(v, FixedEnv(cr, a), ListenerEnv(e));
    InConcat(v, bootstrap + CaEnv(e), LoginEnv(e));
    InConcat(v, bootstrap, CaEnv(e));
  }

  /** No variable is set twice, so the order of the variables does not matter. */
  lemma NoVariableTwice(cr: CR, a: App, rd: Reading)
    ensures var env := DeploymentEnv(cr, a, rd);
            forall i, j :: 0 <= i < j < |env| ==> env[i].name != env[j].name
  {
    var env, fixed := DeploymentEnv(cr, a, rd), FixedEnv(cr, a);
    FixedDiffer(cr, a);
    assert forall i :: 0 <= i < 5 ==> env[i] == fixed[i];
    if rd.Listener? && Dereferenceable(rd.endpoint) {
      var more := ListenerEnv(rd.endpoint);
      ListenerDiffer(rd.endpoint);
      assert |env| == 5 + |more| && forall i :: 5 <= i < |env| ==> env[i] == more[i - 5];
    }
  }

  lemma FixedDiffer(cr: CR, a: App)
    ensures var env := FixedEnv(cr, a);
            && |env| == 5
            && (forall i :: 0 <= i < 5 ==> |env[i].name| in {8, 11, 16, 18})
            && (forall i, j :: 0 <= i < j < 5 ==> env[i].name != env[j].name)
  {
    NamesDiffer();
  }

  lemma ListenerDiffer(e: KafkaEndpoint)
    requires Dereferenceable(e)
    ensures var env := ListenerEnv(e);
            && (forall i :: 0 <= i < |env| ==> |env[i].name| in {14, 17})
            && (forall i, j :: 0 <= i < j < |env| ==> env[i].name != env[j].name)
  {
    NamesDiffer();
  }

  /** The names end in different letters or have different lengths. */
  lemma NamesDiffer()
    ensures |"FUNCTION"| == 8 && |"KAFKA_TOPIC"| == 11 && |"MESSAGES_PER_GROUP"| == 18 && |"SECONDS_TO_PAUSE"| == 16
    ensures |"SAMPLE_REPITITIONS"| == 18 && "SAMPLE_REPITITIONS"[0] == 'S' && "MESSAGES_PER_GROUP"[0] == 'M'
    ensures |"BOOTSTRAP_SERVERS"| == 17 && |"KAFKA_CA_CERT_PEM"| == 17
    ensures "BOOTSTRAP_SERVERS"[0] == 'B' && "KAFKA_CA_CERT_PEM"[0] == 'K'
    ensures |"KAFKA_USERNAME"| == 14 && |"KAFKA_PASSWORD"| == 14
    ensures "KAFKA_USERNAME"[6] == 'U' && "KAFKA_PASSWORD"[6] == 'P'
  {
  }

  // Whatever one object refers to by name is an object that is made, or a secret that the AI stage asks for; ports fit;
  // images are in their places; and every object with a licence in it carries the acceptance of the custom resource.

  lemma AiReferences(images: Images, cr: CR, rd: Reading)
    ensures Manifest(images, cr, AIRuntime, rd).credentials == "kfserving-secret"
    ensures Manifest(images, cr, AIModel, rd).store == "minio-secret"
    ensures Manifest(images, cr, AIDeployment, rd).runtime == "kfservingruntime" == Name(AIRuntime)
    ensures Manifest(images, cr, AIDeployment, rd).model == "anomaly-classifier" == Name(AIModel)
  {
  }

  lemma EventReferences(images: Images, cr: CR, rd: Reading)
    ensures Manifest(images, cr, CartridgeRequirements, rd).cartridge == "iafdemo" == Name(Cartridge)
    ensures var task := Manifest(images, cr, EventProcessingTask, rd);
            task.processorName == "iaf-eventprocessor-instance" == Name(EventProcessor)
            && task.image == images.eventProcessingTask
    ensures Manifest(images, cr, EventProcessor, rd).image == images.eventProcessor
  {
  }

  lemma KnativeReferences(images: Images, cr: CR, servers: string)
    ensures var source := Manifest(images, cr, KafkaSource, Bootstrap(servers));
            && source.bootstrapServers == [servers]
            && source.topics == ["iafdemo-anomaly"] == [Name(KafkaTopic(Risk))]
            && source.sink == "demoserver" == Name(InMemoryChannel)
    ensures var subscription := Manifest(images, cr, Subscription, Bootstrap(servers));
            subscription.channel == Name(InMemoryChannel)
              && subscription.subscriber == "demoserver" == Name(Service(Server))
  {
  }

  lemma MicroserviceReferences(images: Images, cr: CR, rd: Reading, a: App)
    ensures var name := if a.Producer? then "demoproducer" else "demoserver";
            Manifest(images, cr, Route(a), rd).to == name == Name(Service(a)) == Name(Deployment(a))
    ensures var service := Manifest(images, cr, Service(a), rd);
            service.port == 80 && service.targetPort == 8080 == Manifest(images, cr, Route(a), rd).targetPort
    ensures Manifest(images, cr, Deployment(a), rd).image == images.server
  {
  }

  lemma LicenceIsPassedOn(images: Images, cr: CR, s: Slot, rd: Reading)
    requires IsGate(s) || IsAi(s) || s in {EventProcessor, EventProcessingTask}
    ensures Manifest(images, cr, s, rd).accept == cr.accept
  {
  }

  /** The group size and the pause reach the microservice under the names it reads; the number of repetitions does not,
      because it reads SEQUENCE_REPITITIONS and nothing of that name is set. */
  lemma RepetitionsDoNotArrive(cr: CR, a: App, rd: Reading)
    ensures Plain("MESSAGES_PER_GROUP", cr.messagesPerGroup) in DeploymentEnv(cr, a, rd)
    ensures Plain("SECONDS_TO_PAUSE", cr.secondsToPause) in DeploymentEnv(cr, a, rd)
    ensures forall e :: e in DeploymentEnv(cr, a, rd) ==> e.name != "SEQUENCE_REPITITIONS"
  {
    var fixed, name := FixedEnv(cr, a), "SEQUENCE_REPITITIONS";
    assert fixed[2] in fixed && fixed[3] in fixed;
    assert |name| == 20 && |"SAMPLE_REPITITIONS"| == 18;
    forall e | e in DeploymentEnv(cr, a, rd) ensures |e.name| != 20 {
      if e !in fixed && rd.Listener? && Dereferenceable(rd.endpoint) {
        assert e in [Plain("BOOTSTRAP_SERVERS", rd.endpoint.bootstrapServers)] || e in CaEnv(rd.endpoint)
          || e in LoginEnv(rd.endpoint);
      }
    }
  }

  /** The environment of a microservice, appended to variable by variable: the search stops at the first TLS listener.
      `panicked` says that a nil pointer was followed there. */
  method BuildEnv(cr: CR, a: App, eps: seq<KafkaEndpoint>) returns (env: seq<EnvVar>, found: bool, panicked: bool)
    ensures found || panicked <==> FirstTls(eps).Some?
    ensures panicked <==> FirstTls(eps).Some? && !Dereferenceable(FirstTls(eps).value)
    ensures found ==> env == DeploymentEnv(cr, a, Listener(FirstTls(eps).value))
  {
    env, found, panicked := FixedEnv(cr, a), false, false;
    for i := 0 to |eps|
      invariant env == FixedEnv(cr, a) && !found && !panicked
      invariant FirstTls(eps) == FirstTls(eps[i..])
    {
      assert eps[i..][1..] == eps[i + 1..];
      if eps[i].name == TLS {
        env := env + [Plain("BOOTSTRAP_SERVERS", eps[i].bootstrapServers)];
        if eps[i].caSecret.None? {
          panicked := true;
          return;
        }
        if |eps[i].caSecret.value.secretName| > 0 {
          env := env + [FromSecret("KAFKA_CA_CERT_PEM", eps[i].caSecret.value.secretName, eps[i].caSecret.value.key)];
        }
        if eps[i].authentication.None? || eps[i].authentication.value.secret.None? {
          panicked := true;
          return;
        }
        var name := eps[i].authentication.value.secret.value.secretName;
        if |name| > 0 {
          env := env + [Plain("KAFKA_USERNAME", name), FromSecret("KAFKA_PASSWORD", name, "password")];
        }
        found := true;
        assert env == FixedEnv(cr, a) + ListenerEnv(eps[i]);
        break;
      }
    }
  }
}

/** The cluster as the reconciler sees it: Kubernetes objects, secrets, custom resources, MinIO buckets and
    Elasticsearch indices. Every object the reconciler touches has a fixed kind and a fixed name, so a key is a
    slot and a namespace; `Kind` and `Name` give the triple that the API server uses. */
module Store {

  import opened Options

  datatype Topic = Raw | Risk
  datatype App = Producer | Server

  datatype Slot =
    | Cartridge | AutomationBase | CartridgeRequirements
    | AIRuntime | AIModel | AIDeployment
    | KafkaTopic(topic: Topic)
    | EventProcessor | EventProcessingTask
    | KafkaSource | InMemoryChannel | Subscription
    | Deployment(app: App) | Service(app: App) | Route(app: App)

  predicate IsGate(s: Slot) { s.Cartridge? || s.AutomationBase? || s.CartridgeRequirements? }
  predicate IsAi(s: Slot) { s.AIRuntime? || s.AIModel? || s.AIDeployment? }
  predicate IsKnative(s: Slot) { s.KafkaSource? || s.InMemoryChannel? || s.Subscription? }

  function TopicName(t: Topic): string { if t.Raw? then "iafdemo-raw" else "iafdemo-anomaly" }
  function AppName(a: App): string { if a.Producer? then "demoproducer" else "demoserver" }

  /** The name in the API server's key. */
  function Name(s: Slot): string {
    match s
    case Cartridge => "iafdemo"
    case AutomationBase => "iaf-automationbase-instance"
    case CartridgeRequirements => "iaf-cartridgerequirements-instance"
    case AIRuntime => "kfservingruntime"
    case AIModel => "anomaly-classifier"
    case AIDeployment => "anomaly-classifier"
    case KafkaTopic(t) => TopicName(t)
    case EventProcessor => "iaf-eventprocessor-instance"
    case EventProcessingTask => "iaf-eventprocessing-task-instance"
    case KafkaSource => "demoserver"
    case InMemoryChannel => "demoserver"
    case Subscription => "demoserver"
    case Deployment(a) => AppName(a)
    case Service(a) => AppName(a)
    case Route(a) => AppName(a)
  }

  datatype Kind =
    | KCartridge | KAutomationBase | KCartridgeRequirements | KAIRuntime | KAIModel | KAIDeployment | KKafkaTopic
    | KEventProcessor | KEventProcessingTask | KKafkaSource | KInMemoryChannel | KSubscription
    | KDeployment | KService | KRoute

  /** The kind in the API server's key. */
  function KindOf(s: Slot): Kind {
    match s
    case Cartridge => KCartridge
    case AutomationBase => KAutomationBase
    case CartridgeRequirements => KCartridgeRequirements
    case AIRuntime => KAIRuntime
    case AIModel => KAIModel
    case AIDeployment => KAIDeployment
    case KafkaTopic(_) => KKafkaTopic
    case EventProcessor => KEventProcessor
    case EventProcessingTask => KEventProcessingTask
    case KafkaSource => KKafkaSource
    case InMemoryChannel => KInMemoryChannel
    case Subscription => KSubscription
    case Deployment(_) => KDeployment
    case Service(_) => KService
    case Route(_) => KRoute
  }

  /** Two slots never share an API key, although several share a name and several share a kind. */
  lemma SlotsAreKeys(a: Slot, b: Slot)
    requires KindOf(a) == KindOf(b) && Name(a) == Name(b)
    ensures a == b
  {
  }

  datatype Key = Key(slot: Slot, ns: string)

  // ---------- what other operators write and the reconciler reads ----------

  datatype ConditionStatus = ConditionTrue | ConditionFalse | ConditionUnknown
  datatype Condition = Condition(status: ConditionStatus, reason: string)
  datatype SecretRef = SecretRef(secretName: string, key: string)
  datatype Authentication = Authentication(secret: Option<SecretRef>)
  datatype Scope = Internal | External | OtherScope
  datatype EsEndpoint = EsEndpoint(scope: Scope, uri: string, authentication: Option<Authentication>,
      caSecret: Option<SecretRef>)
  datatype KafkaEndpoint = KafkaEndpoint(name: string, bootstrapServers: string,
                                         authentication: Option<Authentication>, caSecret: Option<SecretRef>)
  datatype Components = Components(elasticSearch: Option<seq<EsEndpoint>>, kafka: Option<seq<KafkaEndpoint>>)

  /** `ready` is the condition of type "Ready" when there is one. */
  datatype Status = Status(ready: Option<Condition>, endpoint: string, components: Option<Components>)

  const EMPTY_STATUS := Status(None, "", None)

  datatype Secret = Secret(data: map<string, string>, annotations: map<string, string>)

  datatype CRName = CRName(ns: string, name: string)
  datatype CR = CR(id: CRName, uid: nat, accept: bool,
                   messagesPerGroup: string, secondsToPause: string, sequenceRepititions: string)

  /** A controller reference. */
  datatype Owner = Owner(id: CRName, uid: nat)

  // ---------- what the reconciler writes ----------

  datatype EnvVar = Plain(name: string, value: string) | FromSecret(name: string, secretName: string, key: string)

  datatype Spec =
    | CartridgeSpec(version: string, accept: bool)
    | AutomationBaseSpec(version: string, accept: bool)
    | CartridgeRequirementsSpec(version: string, accept: bool, cartridge: string, requirements: seq<string>)
    | AIRuntimeSpec(version: string, accept: bool, kind: string, platform: string, credentials: string)
    | AIModelSpec(version: string, accept: bool, kind: string, source: string, store: string)
    | AIDeploymentSpec(version: string, accept: bool, runtime: string, model: string, modelVersion: string)
    | KafkaTopicSpec(cluster: string, partitions: nat, replicas: nat, retentionMs: nat, segmentBytes: nat)
    | EventProcessorSpec(version: string, accept: bool, image: string, serviceAccount: string, taskManagers: nat)
    | EventProcessingTaskSpec(version: string, accept: bool, processorName: string, image: string, args: seq<string>)
    | KafkaSourceSpec(bootstrapServers: seq<string>, topics: seq<string>, consumerGroup: string, sink: string)
    | InMemoryChannelSpec
    | SubscriptionSpec(channel: string, subscriber: string)
    | DeploymentSpec(image: string, container: string, env: seq<EnvVar>)
    | ServiceSpec(port: nat, targetPort: nat)
    | RouteSpec(targetPort: nat, to: string)

  datatype Object = Object(spec: Spec, owner: Option<Owner>, status: Status)

  /** `buckets` maps a MinIO endpoint to the upload log of the model bucket there; `indices` holds an endpoint and
      a topic when the index made for that topic exists at that Elasticsearch endpoint. */
  datatype World = World(
    crs: map<CRName, CR>,
    objects: map<Key, Object>,
    secrets: map<(string, string), Secret>,
    buckets: map<string, seq<string>>,
    indices: set<(string, Topic)>)

  /** Custom resources are stored under their own name. */
  predicate KeyedCrs(w: World) { forall id :: id in w.crs ==> w.crs[id].id == id }

  /** What other operators and users do to the world: statuses, secrets and custom resources change freely and
      reconciler-made objects and indices may be deleted; specs, owners and buckets stay as they are. */
  ghost predicate Tampered(w: World, w': World) {
    && w'.objects.Keys <= w.objects.Keys
    && (forall k :: k in w'.objects ==>
         w'.objects[k].spec == w.objects[k].spec && w'.objects[k].owner == w.objects[k].owner)
    && w'.buckets == w.buckets
    && KeyedCrs(w')
  }

  /** As `Tampered`, but nothing is deleted. */
  ghost predicate Undisturbed(w: World, w': World) {
    && Tampered(w, w')
    && w'.objects.Keys == w.objects.Keys
    && w.indices <= w'.indices
  }
}

# IAF demo cartridge: verified model

A Dafny model of the three parts of the demo cartridge that carry its logic, and proofs about them.

* **The reconciler** (`controllers/`). One pass of `Reconcile` is a program counter that makes one API call at a time
  (`Protocol`). Any number of passes for any number of custom resources run against one cluster, among crashes, failing
  calls, lost replies, and everything that users and other operators do (`System`). What the pass makes of each answer
  is stated in the terms of the API (`Decisions`). On that system: objects are created
  once and never rewritten (`Safety`), stages form a prefix and success is complete (`Stages`), the predictor URL and
  the model bucket are written once (`Writes`, `LostReply`). Scripted passes of one worker are runs of the same system
  (`Passes`); on them: convergence within 5 + f passes (`Convergence`), no fewer (`Tightness`), confluence over crashes
  (`Confluence`), the exact fixed points (`Fixpoint`), and noninterference of the AI stage (`Noninterference`).
  Convergence among any number of other reconcilers is proved on runs of the system (`Contention`). The reconciler is
  also written as it stands, as a class with methods (`Controller`), and every execution of it is proved to be a run of
  the system.
* **The producer** (`pkg/producer`): the exact places of attempts and pauses (`Pacing`), the loops themselves
  (`Producer`), and the timestamps, which sort as strings after they have been rewritten (`Timestamps`).
* **The Flink job** (`demo-flink-processor`): rounding and thresholds (`Risk`), the anomaly stream under replay
  (`Stream`), the arguments that the reconciler prints and the job reads (`Arguments`), and what that means from the
  AIDeployment's status to the job (`EndToEnd`).

`dafny verify dfyconfig.toml` checks everything. Every proof by induction is written out; automatic induction is off
(`{:induction false}`) wherever Dafny would try it.

How to read the reconciler's model. A `Slot` is a kind and name that the reconciler uses; with a namespace it is a key.
`Request` is the call a pass makes next, `Resume` where the reply takes it. A call is `Fine`, `Refused` before it had an
effect, or carried out with the `ReplyLost`. `Environment` steps may change statuses, secrets and custom resources at
will and delete objects and indices (`Tampered`); a `Gentle` run deletes nothing. `Readings` are the statuses the other
operators have in store; a `Script` says at which call what goes wrong and which statuses arrive just before it.

## What the code does otherwise than its documentation says

* `api/v1/iafdemo_types.go:44` promises that -1 repetitions go on for ever. The loop `i != r` on 64-bit integers ends
  after 2^64 - 1 rounds (`Producer.MinusOne`), and the setting does not reach the producer at all
  (`Manifests.RepetitionsDoNotArrive`).
* Indices are prepared under names ending in `-new` while the job is given the plain names, so nothing is claimed about
  the mapping of what the job writes.
* A model's name never reaches an invoice: the client never fills it in, so the default name is always used
  (`Risk.ModelRiskMap`).
* A comment in `Processor.java:206` speaks of an environment variable; the predictor URL is an argument.

## Model

| member | source | states |
|---|---|---|
| Store.SlotsAreKeys | controllers/iafdemo_controller.go:50-68 | objects of different steps never collide in the API server, although names and kinds are shared |
| Endpoints.FoldsByCase | controllers/iafdemo_controller.go:210 | two strings fold together iff they have the same length and differ in the case of ASCII letters only |
| Endpoints.ScanEsIsLast | controllers/reconcile_eventprocessor.go:267-280 | address, login and certificate each come from the last internal endpoint that has one, so possibly from different endpoints; with no internal endpoint all are empty |
| Endpoints.FindElasticsearch | controllers/reconcile_eventprocessor.go:267-280 | the loop without break computes that search |
| Endpoints.LastPlainIsLast | controllers/reconcile_knative.go:57-67 | Knative gets the last plain listener, or the empty string |
| Endpoints.FindPlain | controllers/reconcile_knative.go:57-64 | the loop without break computes that search |
| Endpoints.FirstTlsIsFirst | controllers/reconcile_microservice.go:83-133 | the microservices get the first TLS listener; none is found iff there is none |
| Endpoints.CleanMeansUrl | controllers/reconcile_aimodel.go:158-203 | when the AI stage is satisfied with an AIDeployment, asking for the predictor URL of the same status gives a nonempty one |
| Endpoints.UrlWithoutClean | controllers/reconcile_aimodel.go:187-195 | the converse fails exactly when the condition still carries the reason Pending |
| Protocol.ResumeDescends | controllers/iafdemo_controller.go:111-232 | every reply takes a pass to a later call site, so no site is visited twice and every pass ends |
| Protocol.RequeueSources | controllers/iafdemo_controller.go:137-189 | a reply sends the pass back to wait iff a gate is read without a Ready condition that is True, an AIDeployment is read whose Ready condition is missing, Unknown or Pending, or the AIDeployment was created or found to be there already |
| Protocol.SuccessSource | controllers/iafdemo_controller.go:217-231 | success is reported only once the last Route is found or made |
| Decisions.ResourceDecides | controllers/iafdemo_controller.go:116-132 | a pass starts with the custom resource it finds, ends at once if there is none, and fails on any other answer |
| Decisions.EnsureDecides | controllers/iafdemo_controller.go:261-281 | an object is looked for under its key, made with the custom resource as its controller iff it is not found, and a creation must succeed: even one that somebody else has made meanwhile is an error |
| Decisions.TopicDecides | controllers/reconcile_eventstream.go:40-55 | an ensured topic must be found when it is read again, and nothing else is asked of it |
| Decisions.GateDecides | controllers/iafdemo_controller.go:240-259 | a gate opens iff its Ready condition is True; it fails iff it is not found |
| Decisions.StorageSecretDecides | controllers/reconcile_aimodel.go:72-96 | the model store is asked iff the secret has both keys and the endpoint, which loses at most one newline; otherwise the AI stage is over |
| Decisions.StoreDecides | controllers/reconcile_aimodel.go:109-152 | a bucket is made iff it is not there, models follow one behind the other only behind a bucket made here, and trouble with the store ends the AI stage and nothing more |
| Decisions.TrioDecides | controllers/reconcile_aimodel.go:204-309 | the trio is made in order iff the AIDeployment is not found, AlreadyExists included; behind it the pass waits, and trouble ends the AI stage only |
| Decisions.AiStatusDecides | controllers/reconcile_aimodel.go:184-203 | an AIDeployment that is there makes the pass wait iff its Ready condition is missing, Unknown or Pending; otherwise the pass goes on, cleanly iff the condition is True and there is an endpoint, so a failed AIDeployment does not block |
| Decisions.ServingSecretDecides | controllers/reconcile_aimodel.go:208-216 | the trio is begun iff the serving secret is there |
| Decisions.EsStatusDecides | controllers/reconcile_eventprocessor.go:263-283 | the pass goes on iff the last internal endpoint has a nonempty address, and with that address |
| Decisions.EsSecretsAreAnnounced | controllers/reconcile_eventprocessor.go:267-304 | login and certificate secret are those that the last internal endpoint naming one names; without any certificate secret none is asked for |
| Decisions.EsSecretsDecide | controllers/reconcile_eventprocessor.go:285-324 | the login must have both keys and a named certificate secret its certificate; otherwise the pass fails |
| Decisions.IndexAnswerDecides | controllers/reconcile_eventprocessor.go:235-246 | an index request is accepted iff it is answered with 200 or with the error that the index exists; both are requested, the raw one first |
| Decisions.PredictionDecides | controllers/reconcile_aimodel.go:158-177 | the answer about the AIDeployment never stops the pass; a task not found is made with the endpoint of a Ready one, and with the empty URL otherwise |
| Decisions.KnativeSwitch | controllers/iafdemo_controller.go:209-216 | Knative comes behind the task iff the setting reads "true" in any mix of cases |
| Decisions.KafkaStatusDecides | controllers/reconcile_microservice.go:83-136 | Knative is given the last plain listener; a microservice needs a TLS listener, and a nil pointer is followed iff the first one lacks its certificate or its login |
| Decisions.NoKafkaDecides | controllers/reconcile_microservice.go:83-85 | without Kafka in the status the pass fails |
| Safety.CreateOnce | controllers/iafdemo_controller.go:261-281 | in every run, per key, creations that landed minus deletions is the change in presence: 1 or 0 for a key that starts absent |
| Safety.FirstWriterWins | controllers/iafdemo_controller.go:319-339 | as long as nobody deletes it, an object keeps the spec and owner it was born with, whoever else reconciles |
| Safety.RunIsOwned | controllers/iafdemo_controller.go:266-276 | over every run, an object is an original, unchanged, or was built for a custom resource of its own namespace that was in the cluster during the run, and has that custom resource as controller |
| Safety.CascadeIsComplete | controllers/iafdemo_controller.go:116-122 | from any cluster: deleting a namespace's custom resources lets all that a run made there be collected by its controller's name and uid, and nothing elsewhere that would not have been; what is collected belonged to a custom resource that is gone |
| Safety.CallStaysHome | controllers/iafdemo_controller.go:240-281 | a call of a pass leaves other namespaces' objects, all secrets and all custom resources alone |
| Safety.OtherNamespacesUntouched | controllers/iafdemo_controller.go:111-232 | over any run, whatever users and other operators do meanwhile, nothing is created in a namespace that no pass is for, and an object there stays, with spec and owner, exactly if nobody deletes it |
| Safety.UntouchedToTheStatus | controllers/iafdemo_controller.go:111-232 | while others do nothing, such a namespace keeps its objects to the last status |
| Safety.MissingResourceIsIgnored | controllers/iafdemo_controller.go:116-125 | a pass for a missing custom resource ends at its first call and writes nothing |
| Stages.SuccessUnlessDeleted | controllers/iafdemo_controller.go:111-232 | in every run at all: when a pass succeeds, each mandatory object of its namespace (the Knative trio iff it is switched on) and both indices are there or have been deleted since the pass began |
| Stages.SuccessIsComplete | controllers/iafdemo_controller.go:111-232 | from any cluster, with any other passes under way: if nothing is deleted between the beginning of a pass and its success, all of them are there |
| Stages.StagePrefix | controllers/iafdemo_controller.go:137-228 | from a pristine cluster, in every run without deletions: of any two objects in the order of the sixteen mandatory ones, the earlier is there if the later is; the gates and topics before it have been read back, the gates as Ready; and behind the sixth both indices exist at some Elasticsearch |
| Stages.AiAfterGates | controllers/iafdemo_controller.go:137-171 | in every such run the AI objects come behind all three gates, each of which has been read as Ready |
| Stages.MandatoryIs | controllers/iafdemo_controller.go:137-228 | everything in that order is mandatory, the Knative trio iff it is switched on, and no AI object is |
| Stages.AiStagePrefix | controllers/reconcile_aimodel.go:243-306 | AIDeployment implies AIModel implies AIRuntime in every such run |
| Writes.PredictorIsWrittenOnce | controllers/reconcile_eventprocessor.go:329-359 | from any cluster: look at the status that the pass making a task was answered with when it asked for the AIDeployment; the task carries that status's endpoint if its Ready condition was True and the empty URL otherwise, and does so until it is deleted |
| Writes.BucketIsWrittenByOnePass | controllers/reconcile_aimodel.go:109-155 | from any cluster without a bucket: only the pass that made the bucket ever adds to it; it holds a prefix of the model walk, and all of it iff the walk finished or the reply to the very last write was lost, never both |
| LostReply.CompleteButFailed | controllers/reconcile_aimodel.go:115-151 | for every configuration there is a run from a pristine cluster after which the bucket is complete and the walk has failed |
| Passes.PassIsRun | controllers/iafdemo_controller.go:111-232 | every scripted pass is a run of the concurrent system without deletions |
| Convergence.OnePass | controllers/iafdemo_controller.go:137-231 | a pass keeps what was achieved; without faults it succeeds or closes one of the four gaps |
| Convergence.GapsAndFaultsBoundPasses | controllers/iafdemo_controller.go:137-231 | the number of passes needed is at most one more than gaps and faults together |
| Convergence.BoundedConvergence | controllers/iafdemo_controller.go:137-231 | from any subset of objects, with f faults, one of 5 + f passes succeeds |
| Contention.OnePassInCrowd | controllers/iafdemo_controller.go:137-231 | among any number of other reconcilers, a pass that meets neither a fault nor an object made between its Get and its Create succeeds, or a gap has closed meanwhile |
| Contention.ConvergenceInCrowd | controllers/iafdemo_controller.go:261-281 | in any run of the system, with f faults and c such collisions, one of 5 + f + c passes succeeds |
| Tightness.QuietPass | controllers/iafdemo_controller.go:137-171 | while nothing settles, a pass closes at most one gap, and none if it succeeds |
| Tightness.FiveIsExact | controllers/iafdemo_controller.go:137-231 | with nothing there and nothing going wrong, the fifth pass succeeds and none before it |
| Confluence.GoalIsReached | controllers/iafdemo_controller.go:111-232 | after any passes of which the last succeeds, the objects are exactly those that a goal, defined from the start and the readings alone, asks for |
| Confluence.CrashConfluence | controllers/iafdemo_controller.go:111-232 | two such histories with different crashes and failures leave the same objects with the same specs and owners |
| Fixpoint.CleanSuccessIsSteady | controllers/iafdemo_controller.go:164-231 | a success with a clean AI stage, whatever failed on the way, leaves nothing to do |
| Fixpoint.FixedExactlyWhenSteady | controllers/iafdemo_controller.go:164-231 | a quiet pass changes nothing and succeeds cleanly iff there is nothing to do, and then asks for no creation and no upload |
| Fixpoint.SecondPassIsIdle | controllers/reconcile_eventprocessor.go:235-246 | a second pass after a clean success changes nothing and succeeds again, the repeated index requests being absorbed |
| Noninterference.AiNoninterference | controllers/iafdemo_controller.go:164-171 | two passes that differ only in what the AI stage meets, its objects' statuses included, end alike, with the same indices and the same non-AI objects, up to the predictor URL of a new task |
| Manifests.TasksDifferInSuffix | controllers/reconcile_eventprocessor.go:449-484 | tasks built with different predictor URLs differ in one suffix of one argument only |
| Manifests.EnvIsExactly | controllers/reconcile_microservice.go:66-130 | which variables a microservice gets behind a TLS listener, and no others; the certificate iff its secret has a name, the login iff its secret has one |
| Manifests.NoVariableTwice | controllers/reconcile_microservice.go:66-130 | no variable is set twice |
| Manifests.AiReferences | controllers/reconcile_aimodel.go:217-298 | the AIDeployment names the runtime and the model that are made, and those the secrets that the stage asks for |
| Manifests.EventReferences | controllers/reconcile_eventprocessor.go:463-483 | the task names the processor that is made, the requirements name the cartridge, and each image is in its place |
| Manifests.KnativeReferences | controllers/reconcile_knative.go:125-185 | source, channel, subscription and service form one chain from the anomaly topic to the server |
| Manifests.MicroserviceReferences | controllers/reconcile_microservice.go:135-249 | a Route leads to its own Service, at the port that the Service leads to |
| Manifests.LicenceIsPassedOn | controllers/iafdemo_controller.go:283-296 | every object with a licence carries the acceptance of the custom resource |
| Manifests.BuildEnv | controllers/reconcile_microservice.go:66-133 | the loop with break appends exactly the first TLS listener's variables, and follows a nil pointer iff that listener lacks a secret reference |
| Manifests.RepetitionsDoNotArrive | controllers/reconcile_microservice.go:66-81 | group size and pause reach the producer, the number of repetitions does not |
| Controller.Reconciler.Interfere | controllers/iafdemo_controller.go:111-232 | between two calls the others may take any steps; the pass's own place stays |
| Controller.Reconciler.Do | controllers/iafdemo_controller.go:71-76 | a call extends the run by one step of this worker and takes its pass where the reply leads |
| Controller.Reconciler.Ensure | controllers/iafdemo_controller.go:261-281 | get, then create if not found, follows the model's two call sites, with AlreadyExists as an error |
| Controller.Reconciler.CreateGate | controllers/iafdemo_controller.go:240-259 | an error, a requeue or the next stage, exactly as the model's gate |
| Controller.Reconciler.CreateEventStream | controllers/reconcile_eventstream.go:40-83 | never a requeue; the next stage only after the second read found the topic |
| Controller.Reconciler.SetupAIModels | controllers/reconcile_aimodel.go:67-156 | requeue or the first topic, error or not; only the latter is remembered |
| Controller.Reconciler.CopyModels | controllers/reconcile_aimodel.go:108-152 | models are uploaded only behind a bucket made by this pass |
| Controller.Reconciler.UploadModels | controllers/reconcile_aimodel.go:122-150 | the walk follows the model's upload sites one by one up to the first failure |
| Controller.Reconciler.DeployModelOnKubeflow | controllers/reconcile_aimodel.go:179-309 | the decision tree on the status, and the trio, end where the model says |
| Controller.Reconciler.CreateTrio | controllers/reconcile_aimodel.go:217-308 | three creations content with AlreadyExists end in a requeue |
| Controller.Reconciler.GetElasticsearchInfo | controllers/reconcile_eventprocessor.go:249-327 | an endpoint only with the login and, if named, the certificate in place |
| Controller.Reconciler.InitializeElasticsearchIndices | controllers/reconcile_eventprocessor.go:149-169 | both indices requested in order, each answer accepted or an error |
| Controller.Reconciler.GetPredictorUrl | controllers/reconcile_aimodel.go:158-177 | the endpoint in the status that the call was answered with if its Ready condition is True, and the empty URL otherwise |
| Controller.Reconciler.ReconcileEventProcessingTask | controllers/reconcile_eventprocessor.go:329-359 | the URL is asked for in every case and used only for a new task |
| Controller.Reconciler.ReconcileKnative | controllers/reconcile_knative.go:44-123 | the trio in order behind the last plain listener |
| Controller.Reconciler.ReconcileMicroservice | controllers/reconcile_microservice.go:46-250 | Deployment, Service and Route in order behind the first TLS listener; a nil pointer where the model has one |
| Controller.Reconciler.Reconcile | controllers/iafdemo_controller.go:111-232 | every execution is a run of the system in which this pass ends as it comes back: an error iff the pass failed, a wait of 30 seconds iff it is to be repeated, a panic iff a nil pointer was followed, and an empty result otherwise; an empty result means that nothing is missing but what was deleted since the pass began, or that the custom resource was not there, whatever happened before and whoever else is at work |
| Timestamps.EarlierIffSmaller | pkg/producer/producer.go:36-38 | calendar order is the order of the counted minutes, and different minutes are different instants |
| Timestamps.CivilByFormula | pkg/producer/producer.go:36-38 | which dates exist in the years that a two-digit year can mean: every fourth year is a leap year |
| Timestamps.InstantByFormula | pkg/producer/producer.go:36-38 | the minutes counted month by month are those of the closed formula of the Gregorian calendar |
| Timestamps.StringOrderIsTimeOrder | pkg/producer/producer.go:108-109 | written timestamps compare as strings as the instants do (RFC 3339, section 5.1) |
| Timestamps.ReadsBackExactly | pkg/producer/producer.go:108-109 | a reader of the form of RFC 3339, section 5.6, gets the minute back, from the written string and from no other |
| Timestamps.ParsesExactly | pkg/producer/producer.go:102-106 | exactly which strings are read, and as which minute: month, day and hour with or without a leading zero, a year of two digits or of a sign and one, at least one space, a minute of two digits, and a date that exists |
| Timestamps.SampleReadsBack | pkg/producer/producer.go:102-106 | every minute of 1969 to 2068 in the sample file's notation is read as that minute |
| Timestamps.RewritePreservesOrder | pkg/producer/producer.go:102-109 | for any two rows that the parser accepts, two-character years with a sign included, the rewritten strings sort as the instants meant, and read back |
| Timestamps.RawOrderIsNotTimeOrder | pkg/producer/producer.go:36-38 | the rows' own notation does not sort so |
| Timestamps.RewrittenIsUnreadable | pkg/producer/producer.go:108-109 | a rewritten row could not be sent again, so the file must be read afresh for every sequence |
| Pacing.ExactPacing | pkg/producer/producer.go:100-118 | n items in groups of g make n + n/g effects, item k + 1 at place k + k/g, pause j behind item j*g |
| Pacing.Trailing | pkg/producer/producer.go:100-118 | behind the last pause stand exactly the last n mod g items, attempted in order |
| Pacing.RepeatAt | pkg/producer/producer.go:75-78 | every repetition is the same sequence at its own place |
| Pacing.RepetitionCounts | pkg/producer/producer.go:75-78 | r repetitions make r*n attempts and r*(n/g) pauses, at most (r*n)/g, with equality iff the left-over items together do not fill a group |
| Producer.AtoiReadsDecimal | pkg/producer/producer.go:46-54 | a decimal setting is read back if it fits 64 bits, else the default holds |
| Producer.AtoiReadsNegative | pkg/producer/producer.go:46-54 | so is a negative one, down to the smallest 64-bit integer |
| Producer.OtherSettings | pkg/producer/producer.go:46-54 | a plus sign and leading zeros change nothing, and anything but digits behind an optional sign gives the default |
| Producer.SequenceCounts | pkg/producer/producer.go:101-118 | as many attempts as there are rows before the first unreadable one, and one pause per full group of them |
| Producer.SequenceOrder | pkg/producer/producer.go:101-118 | attempt number k + 1 is of row k + 1, behind the pauses of the full groups before it, with the time that the row says and the row unchanged but for the way its time is written |
| Producer.SequencePauses | pkg/producer/producer.go:111-117 | behind every full group there is a pause of as many seconds as were asked for, or of the low 64 bits of so many nanoseconds |
| Producer.RepetitionsPause | pkg/producer/producer.go:75-78 | so it is in every repetition |
| Producer.SentTimestampsSort | pkg/producer/producer.go:102-111 | the timestamps inside the messages sort like the times of their events |
| Producer.LoopExit | pkg/producer/producer.go:75-78 | the wrapping counter first meets r after r rounds, or 2^64 + r for a negative r; an unbounded counter never meets a negative r |
| Producer.MinusOne | pkg/producer/producer.go:52-54 | the setting -1 means 2^64 - 1 sequences |
| Producer.PauseIsExact | pkg/producer/producer.go:115 | the pause is the one asked for iff its nanoseconds fit 64 bits |
| Producer.SendSequence | pkg/producer/producer.go:86-119 | the loop with its counter produces the counter-free trace; it dies iff a row is unreadable |
| Producer.Start | pkg/producer/producer.go:41-84 | settings and defaults, then exactly that many sequences, or death in the first one |
| Risk.RoundsOnePlace | demo-flink-processor/src/main/java/com/abp/rest/client/ModelRestClient.java:131 | an integer stays, and one decimal place goes to the next integer away from zero |
| Risk.RoundsPlaceByPlace | demo-flink-processor/src/main/java/com/abp/rest/client/ModelRestClient.java:131 | several decimal places can be rounded one at a time, from the last |
| Risk.RoundsTrailingZero | demo-flink-processor/src/main/java/com/abp/rest/client/ModelRestClient.java:131 | a zero behind the last digit changes nothing, at any scale |
| Risk.RoundsMirrored | demo-flink-processor/src/main/java/com/abp/rest/client/ModelRestClient.java:131 | a negative decimal is rounded like its opposite |
| Risk.AboveByPlace | demo-flink-processor/src/main/java/com/abp/ModelRiskMap.java:44-47 | comparing with a bound does not depend on how many zeros are written |
| Risk.Low32IsCongruent | demo-flink-processor/src/main/java/com/abp/rest/client/ModelRestClient.java:131 | what is kept of an integer has 32 bits and differs by a multiple of 2^32; it is the integer iff that fits |
| Risk.RoundingKeepsAbove | demo-flink-processor/src/main/java/com/abp/rest/client/ModelRestClient.java:131 | rounding away from zero moves no decimal across a bound that is a natural number |
| Risk.RoundingAgrees | demo-flink-processor/src/main/java/com/abp/ModelRiskMap.java:42-47 | the class of the truncated integer is that of the exact decimal iff it fits 32 bits or its low bits happen to fall right |
| Risk.OverflowIsLow | demo-flink-processor/src/main/java/com/abp/rest/client/ModelRestClient.java:131 | a prediction of 2^32 comes out as low |
| Risk.RoundingDownDisagrees | demo-flink-processor/src/main/java/com/abp/rest/client/ModelRestClient.java:131 | the rounding mode matters: rounding towards zero would give a wrong class exactly to the decimals strictly between 50 and 51 and between 100 and 101 |
| Risk.CallInferenceService | demo-flink-processor/src/main/java/com/abp/rest/client/ModelRestClient.java:103-143 | which answers throw, which give a null, and the rounded first prediction otherwise |
| Risk.Classify | demo-flink-processor/src/main/java/com/abp/ModelRiskMap.java:42-52 | successive overwrites give High above 100, Medium above 50 and Low otherwise; a missing name is replaced by the default |
| Risk.ModelRiskMap | demo-flink-processor/src/main/java/com/abp/ModelRiskMap.java:39-53 | the risk is the class of the exact prediction whenever that rounds into 32 bits; without one it throws and changes nothing |
| Risk.RiskMap | demo-flink-processor/src/main/java/com/abp/RiskMap.java:23-37 | Low iff the amount is at most 5000, High iff it is not and the delay exceeds 90 days, Medium otherwise, and what is no number is not small; the risk is written into the invoice passed in and nothing else of it changes |
| Risk.RiskIsMonotone | demo-flink-processor/src/main/java/com/abp/RiskMap.java:26-34 | a larger amount and a longer delay never lower the risk; above 5000 it rises exactly between 90 days and 91 |
| Risk.LateFilter | demo-flink-processor/src/main/java/com/abp/LateFilter.java:21-26 | keeps exactly the late invoices, a missing pay type not being late |
| Risk.ValidFilter | demo-flink-processor/src/main/java/com/abp/ValidFilter.java:20-25 | keeps exactly the positive amounts, so nothing that is no number |
| Stream.StagesCommute | demo-flink-processor/src/main/java/com/abp/Processor.java:202-211 | the two filters and the map can be put in any order and fuse into one test and one map |
| Stream.EmittedNext | demo-flink-processor/src/main/java/com/abp/Processor.java:199-215 | one record more is emitted iff it is late and its amount positive, behind everything before it, with the risk of its amount and delay and otherwise as it came |
| Stream.EmittedInOrder | demo-flink-processor/src/main/java/com/abp/Processor.java:199-215 | the emitted records are those of the topic that are late with a positive amount, once each and in order, with their risks filled in |
| Stream.RunJob | demo-flink-processor/src/main/java/com/abp/Processor.java:199-215 | a run that stops anywhere has emitted a prefix of the topic's image, in order |
| Stream.ReplayIsSafe | demo-flink-processor/src/main/java/com/abp/Processor.java:199-215 | over any runs from the earliest record, one of which finishes, exactly one full run's records come out, with multiplicities between that of one run and that times the number of runs |
| Arguments.Configure | demo-flink-processor/src/main/java/com/abp/Processor.java:72-100 | each setting is the parameter, or its default if that is missing or empty; the model is used iff there is a nonempty URL |
| Arguments.PrintedAsWords | controllers/reconcile_eventprocessor.go:449-459 | the printed arguments are the query prefix and the flags and values with single spaces between |
| EndToEnd.JobFollowsPredictor | controllers/reconcile_eventprocessor.go:329-359 | from any cluster: the job started from a task that a run makes uses the model iff the status that the creating pass was answered with was Ready and had an endpoint, and asks the model there, unless that has a space in it |
| EndToEnd.AiShowsInUrlOnly | controllers/reconcile_eventprocessor.go:338-344 | with the real specs, all that the AI stage changes outside itself is the predictor URL at the end of a task's program arguments |
| Arguments.ReadsBack | demo-flink-processor/src/main/java/com/abp/Processor.java:72-100 | what the reconciler prints is read as it was meant iff the URL has no space, and then the model map is chosen iff there is a URL |

## Left out

- Arguments.Received: what cuts the printed text into words and reads them, the task's command script, Flink's REST layer and `ParameterTool`, is not part of this model; cutting at spaces and reading `--key value` pairs is assumed.
- Noninterference.AiNoninterference: Elasticsearch's secrets, in the cluster and in what the other operators have in store, must not bear the names of the two AI secrets; with shared names the AI secrets are an input of the index stage too.
- Confluence.CrashConfluence: no call of the AI stage and no question for the predictor URL may fail (they may be cut off by a crash), because the pass swallows such failures and goes on without the AI objects or the URL.
- Safety.OtherNamespacesUntouched: speaks of objects, whose statuses others may change; two namespaces whose secrets or statuses name the same MinIO or Elasticsearch share buckets and indices there.
- Controller.Reconciler.Interfere: what the others do is given by contract only; the death of the process in the middle of a method is covered in `System` and `Passes`, not in the class.
- Stale reads from the informer cache: a Get sees the present cluster.
- SetControllerReference is taken to succeed on a fresh object, and every kind to be registered with the client (`pkg/operator/operator.go` registers another version of the messaging API than `reconcile_knative.go` uses).
- HTTP, TLS, SASL, trust stores and the clients of Kubernetes, MinIO, Kafka and the model server: a call is an atomic operation that may fail; a MinIO client that cannot be built counts as a failing first call, a model file that cannot be opened as a failing upload.
- A Kafka endpoint without a secret reference is taken to make the microservice stage panic; the declarations of those types are not part of this model.
- Users creating, or others rewriting, objects under the reconciler's keys: they are there from the start or made by a reconciler.
- Automatic passes after a child was deleted: the controller watches only its own kind, so passes are assumed to happen.
- Labels, annotations other than those read, descriptions, resource settings and log configuration inside specs.
- Delivery of Kafka messages, the raw sink, buffering of the Elasticsearch sinks, Flink scheduling, JSON and CloudEvents.
- With the model-based risk map a replay may rate differently, so the replay results are for the built-in map.
- Generated code, the echo server, manifests, the build, protobuf files and the gRPC demo client: plumbing.

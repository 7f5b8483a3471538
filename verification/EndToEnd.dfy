/** From the AIDeployment's status to the Flink job: what the reconciler saw is what the job does. */
module EndToEnd {
  import opened Options
  import opened Store
  import opened Protocol
  import opened System
  import Writes
  import opened Passes
  import opened Noninterference
  import opened Manifests
  import opened Arguments

  /** Take any cluster and any run that makes a namespace's task, to a point where the task is there, and any
      continuation in which nobody deletes it, with the real specs. Look at the status that the pass that made the
      task was answered with when it asked for the AIDeployment. The job started from the task rates invoices with the
      model iff that status was Ready and had an endpoint, and asks the model at that endpoint, as long as that has no
      space in it. */
  lemma {:induction false} JobFollowsPredictor(images: Images, cfg: Config, s: Sys, before: seq<Step>,
      after: seq<Step>, ns: string)
    requires cfg.blueprint == Blueprint(images)
    requires Writes.AllTruthful(cfg, s) && Valid(cfg, s, before) && Valid(cfg, Run(cfg, s, before), after)
    requires var k, mid := Key(EventProcessingTask, ns), Run(cfg, s, before);
             && k in mid.w.objects && mid.h.creates[k] > s.h.creates[k]
             && Run(cfg, mid, after).h.deletes[k] == mid.h.deletes[k]
    ensures ns in Run(cfg, s, before).h.tasks
    ensures Key(EventProcessingTask, ns) in Run(cfg, Run(cfg, s, before), after).w.objects
    ensures var answer := Run(cfg, s, before).h.tasks[ns].1;
            var spec := Run(cfg, Run(cfg, s, before), after).w.objects[Key(EventProcessingTask, ns)].spec;
            var ready := answer.Some? && answer.value.ready.Some? && answer.value.ready.value.status.ConditionTrue?;
            && spec.EventProcessingTaskSpec? && |spec.args| == 4
            && (!(ready && ' ' in answer.value.endpoint) ==>
                 var job := Received(spec.args[3]);
                 && job.Some?
                 && job.value.predictorUrl == (if ready && answer.value.endpoint != "" then Some(answer.value.endpoint)
                                               else None)
                 && (UsesModel(job.value) <==> ready && answer.value.endpoint != ""))
  {
    Writes.PredictorIsWrittenOnce(cfg, s, before, after, ns);
    JobOfAnswer(Run(cfg, s, before).h.tasks[ns].1);
  }

  lemma JobOfAnswer(answer: Option<Status>)
    ensures var ready := answer.Some? && answer.value.ready.Some? && answer.value.ready.value.status.ConditionTrue?;
            !(ready && ' ' in answer.value.endpoint) ==>
              var job := Received(ProgramArgs(Writes.UrlIn(answer)));
              && job.Some?
              && job.value.predictorUrl == (if ready && answer.value.endpoint != "" then Some(answer.value.endpoint)
                                            else None)
              && (UsesModel(job.value) <==> ready && answer.value.endpoint != "")
  {
    ReadsBack(Writes.UrlIn(answer));
  }

  /** The same task, but for the predictor URL behind its program arguments. */
  ghost predicate DifferInUrl(t1: Spec, t2: Spec) {
    exists u1, u2 :: t1.EventProcessingTaskSpec? && t1.args == TaskArgs(u1) && t2 == t1.(args := TaskArgs(u2))
  }

  /** With the real specs, what the AI stage meets shows outside it in one place only: two passes that differ in nothing
      else leave the same non-AI objects, and tasks that are the same or differ in the predictor URL. */
  lemma {:induction false} AiShowsInUrlOnly(images: Images, cfg: Config, given: Readings, sc1: Script, sc2: Script,
      w1: World, w2: World,
      id: CRName, k: Key)
    requires cfg.blueprint == Blueprint(images)
    requires id in w1.crs && Alike(cfg, w1.crs[id], w1, w2) && KeyedCrs(w1) && EsApart(w1, id.ns)
    requires StoreApart(given, id.ns)
    requires SameSettling(cfg, sc1, sc2) && SameEvents(cfg, sc1, sc2)
    requires !StopsInAi(cfg, given, sc1, w1, Fetch(id)) && !StopsInAi(cfg, given, sc2, w2, Fetch(id))
    requires !IsAi(k.slot)
    ensures var e1, e2 := Pass(cfg, given, sc1, w1, Fetch(id)).0, Pass(cfg, given, sc2, w2, Fetch(id)).0;
            && (k in e1.objects <==> k in e2.objects)
            && (k in e1.objects ==>
                 || e1.objects[k] == e2.objects[k]
                 || (k.slot.EventProcessingTask? && e1.objects[k].owner == e2.objects[k].owner
                     && e1.objects[k].status == e2.objects[k].status
                     && DifferInUrl(e1.objects[k].spec, e2.objects[k].spec)))
  {
    AiNoninterference(cfg, given, sc1, sc2, w1, w2, id, k);
    var e1, e2 := Pass(cfg, given, sc1, w1, Fetch(id)).0, Pass(cfg, given, sc2, w2, Fetch(id)).0;
    if k in e1.objects && e1.objects[k] != e2.objects[k] {
      RealTwins(images, cfg, w1.crs[id], e1.objects[k], e2.objects[k]);
    }
  }

  lemma RealTwins(images: Images, cfg: Config, cr: CR, o1: Object, o2: Object)
    requires cfg.blueprint == Blueprint(images) && Twins(cfg, cr, o1, o2) && o1 != o2
    ensures o1.owner == o2.owner && o1.status == o2.status && DifferInUrl(o1.spec, o2.spec)
  {
    var u1, u2 :| o1.spec == cfg.blueprint(cr, EventProcessingTask, Predictor(u1))
                  && o2.spec == cfg.blueprint(cr, EventProcessingTask, Predictor(u2));
    assert o1.spec.args == TaskArgs(u1) && o2.spec == o1.spec.(args := TaskArgs(u2));
  }
}

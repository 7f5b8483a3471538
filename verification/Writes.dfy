/** Two things that are written once: the predictor URL inside the EventProcessingTask, and the model bucket. */
module Writes {
  import opened Options
  import opened Store
  import opened Endpoints
  import opened Protocol
  import opened System
  import opened Safety

  // ---------- the predictor URL ----------

  /** The URL a pass is about to write is the one its own question was answered with: the endpoint of a Ready
      AIDeployment, and nothing otherwise. */
  predicate Truthful(run: Running) {
    run.st.At? && run.st.pc.Make? && run.st.pc.slot.EventProcessingTask? ==>
      run.st.pc.reading == Predictor(UrlIn(run.answer))
  }

  function UrlIn(answer: Option<Status>): string {
    if answer.Some? && answer.value.ready.Some? && answer.value.ready.value.status.ConditionTrue?
    then answer.value.endpoint else ""
  }

  ghost predicate TaskAsRecorded(cfg: Config, s: Sys, ns: string) {
    var k := Key(EventProcessingTask, ns);
    k in s.w.objects ==>
      && ns in s.h.tasks
      && s.w.objects[k].spec == cfg.blueprint(s.h.tasks[ns].0, EventProcessingTask, Predictor(UrlIn(s.h.tasks[ns].1)))
      && s.w.objects[k].owner == Some(OwnerOf(s.h.tasks[ns].0))
  }

  ghost predicate AllTruthful(cfg: Config, s: Sys) {
    forall r :: r in s.workers ==> Truthful(s.workers[r]) && WellPlaced(cfg, s.workers[r].st)
  }

  /** A task that has been made since the start is as recorded. */
  ghost predicate MadeAsRecorded(cfg: Config, start: Sys, s: Sys, ns: string) {
    var k := Key(EventProcessingTask, ns);
    s.h.creates[k] > start.h.creates[k] ==> TaskAsRecorded(cfg, s, ns)
  }

  lemma CallIsTruthful(cfg: Config, s: Sys, r: nat, fate: Fate)
    requires Busy(s, r) && WellPlaced(cfg, s.workers[r].st)
    ensures Truthful(DoCall(cfg, s, r, fate).workers[r])
    ensures WellPlaced(cfg, DoCall(cfg, s, r, fate).workers[r].st)
  {
    var st := s.workers[r].st;
    var reply := Attempt(s.w, Request(cfg, st), fate).1;
    var st' := Resume(cfg, st, reply);
    ResumeDescends(cfg, st, reply);
    if st'.At? && st'.pc.Make? && st'.pc.slot.EventProcessingTask? {
      ToTheTask(cfg, st, reply);
    }
  }

  lemma ToTheTask(cfg: Config, st: Worker, r: Reply)
    requires !st.Stop? && WellPlaced(cfg, st)
    requires var st' := Resume(cfg, st, r); st'.At? && st'.pc.Make? && st'.pc.slot.EventProcessingTask?
    ensures st.At? && st.pc.Predict?
    ensures Resume(cfg, st, r).pc.reading == Predictor(if r.Found? then PredictorUrl(r.obj.status) else "")
  {
  }

  lemma TaskCreation(cfg: Config, start: Sys, s: Sys, r: nat, fate: Fate, ns: string)
    requires Busy(s, r) && WellPlaced(cfg, s.workers[r].st) && Truthful(s.workers[r])
    requires MadeAsRecorded(cfg, start, s, ns)
    requires s.h.creates[Key(EventProcessingTask, ns)] >= start.h.creates[Key(EventProcessingTask, ns)]
    ensures MadeAsRecorded(cfg, start, DoCall(cfg, s, r, fate), ns)
  {
    CallCreatesAtMostOne(cfg, s, r, fate);
    var st, op := s.workers[r].st, Request(cfg, s.workers[r].st);
    if op.Create? && op.key.slot.EventProcessingTask? {
      assert st.At? && st.pc.Make? && st.pc.slot.EventProcessingTask?;
    }
  }

  lemma {:induction false} RunKeepsTask(cfg: Config, start: Sys, s: Sys, steps: seq<Step>, ns: string)
    requires Valid(cfg, s, steps) && AllTruthful(cfg, s) && MadeAsRecorded(cfg, start, s, ns)
    requires s.h.creates[Key(EventProcessingTask, ns)] >= start.h.creates[Key(EventProcessingTask, ns)]
    ensures MadeAsRecorded(cfg, start, Run(cfg, s, steps), ns)
    decreases |steps|
  {
    if |steps| > 0 {
      if steps[0].Call? {
        CallIsTruthful(cfg, s, steps[0].r, steps[0].fate);
        TaskCreation(cfg, start, s, steps[0].r, steps[0].fate, ns);
        CallCreatesAtMostOne(cfg, s, steps[0].r, steps[0].fate);
      }
      RunKeepsTask(cfg, start, Apply(cfg, s, steps[0]), steps[1..], ns);
    }
  }

  /** The predictor URL is written once. Take any cluster, at whatever point its passes are as long as what they are
      about to write is what they were told; any run in which a task is made for a namespace and to a point where the
      task is there; and any continuation in which nobody deletes that task. Its spec is still the one built from the
      custom resource and a URL: the endpoint in the status that the creating pass was answered with when it asked for
      the AIDeployment, if its Ready condition was True, and the empty one otherwise. */
  lemma {:induction false} PredictorIsWrittenOnce(cfg: Config, s: Sys, before: seq<Step>, after: seq<Step>, ns: string)
    requires AllTruthful(cfg, s) && Valid(cfg, s, before) && Valid(cfg, Run(cfg, s, before), after)
    requires var k, mid := Key(EventProcessingTask, ns), Run(cfg, s, before);
             && k in mid.w.objects && mid.h.creates[k] > s.h.creates[k]
             && Run(cfg, mid, after).h.deletes[k] == mid.h.deletes[k]
    ensures var mid, end := Run(cfg, s, before), Run(cfg, Run(cfg, s, before), after);
            && ns in mid.h.tasks
            && Key(EventProcessingTask, ns) in end.w.objects
            && var (cr, answer) := mid.h.tasks[ns];
               var url := if answer.Some? && answer.value.ready.Some? && answer.value.ready.value.status.ConditionTrue?
                          then answer.value.endpoint else "";
               end.w.objects[Key(EventProcessingTask, ns)].spec
                 == cfg.blueprint(cr, EventProcessingTask, Predictor(url))
  {
    RunKeepsTask(cfg, s, s, before, ns);
    FirstWriterWins(cfg, Run(cfg, s, before), after, Key(EventProcessingTask, ns));
  }

  // ---------- the model bucket ----------

  ghost predicate UploaderSound(cfg: Config, s: Sys, r: nat)
    requires r in s.workers
  {
    var run := s.workers[r];
    run.st.At? && run.st.pc.AiUpload? ==>
      var m, i := run.st.pc.minio, run.st.pc.i;
      m in s.w.buckets && m in s.h.makers && s.h.makers[m] == run.pass && i < |cfg.models|
        && s.w.buckets[m] == cfg.models[..i]
  }

  /** A bucket is complete exactly if the walk finished, or the reply to its last write was lost; never both. */
  ghost predicate BucketSound(cfg: Config, s: Sys, m: string) {
    && (m in s.h.finished || m in s.h.lost ==> m in s.w.buckets)
    && (m in s.h.finished ==> m !in s.h.lost)
    && (m in s.w.buckets ==>
         && s.w.buckets[m] <= cfg.models
         && m in s.h.makers && s.h.makers[m] < s.passes
         && (s.w.buckets[m] == cfg.models <==> m in s.h.finished || m in s.h.lost))
  }

  ghost predicate BucketsSound(cfg: Config, s: Sys) {
    && (forall m :: BucketSound(cfg, s, m))
    && (forall r :: r in s.workers ==> s.workers[r].pass < s.passes && UploaderSound(cfg, s, r))
    && (forall r, q :: r in s.workers && q in s.workers && s.workers[r].pass == s.workers[q].pass ==> r == q)
  }

  /** A call that changes a bucket is an upload by the pass that made it, or the making itself. */
  lemma CallOnBuckets(cfg: Config, s: Sys, r: nat, fate: Fate)
    requires Busy(s, r) && BucketsSound(cfg, s)
    ensures var s', st := DoCall(cfg, s, r, fate), s.workers[r].st;
            || s'.w.buckets == s.w.buckets
            || (st.At? && st.pc.AiMakeBucket? && st.pc.minio !in s.w.buckets && !fate.Refused?
                && s'.w.buckets == s.w.buckets[st.pc.minio := []])
            || (st.At? && st.pc.AiUpload? && !fate.Refused?
                && s'.w.buckets == s.w.buckets[st.pc.minio := cfg.models[..st.pc.i + 1]])
  {
    var st := s.workers[r].st;
    if st.At? && st.pc.AiUpload? {
      assert UploaderSound(cfg, s, r);
      assert cfg.models[..st.pc.i] + [cfg.models[st.pc.i]] == cfg.models[..st.pc.i + 1];
    }
  }

  lemma ToUpload(cfg: Config, st: Worker, reply: Reply)
    requires !st.Stop?
    requires var st' := Resume(cfg, st, reply); st'.At? && st'.pc.AiUpload?
    ensures st.At? && (st.pc.AiMakeBucket? || st.pc.AiUpload?) && reply.Done?
    ensures var st' := Resume(cfg, st, reply);
            st'.pc == AiUpload(st.pc.minio, if st.pc.AiUpload? then st.pc.i + 1 else 0) && st'.pc.i < |cfg.models|
  {
  }

  lemma CallKeepsUploader(cfg: Config, s: Sys, r: nat, fate: Fate)
    requires Busy(s, r) && BucketsSound(cfg, s)
    ensures UploaderSound(cfg, DoCall(cfg, s, r, fate), r)
  {
    var st := s.workers[r].st;
    var op := Request(cfg, st);
    var (w', reply) := Attempt(s.w, op, fate);
    var st' := Resume(cfg, st, reply);
    assert UploaderSound(cfg, s, r);
    if st'.At? && st'.pc.AiUpload? {
      ToUpload(cfg, st, reply);
      CallOnBuckets(cfg, s, r, fate);
    }
  }

  lemma CallKeepsOthers(cfg: Config, s: Sys, r: nat, fate: Fate, q: nat)
    requires Busy(s, r) && BucketsSound(cfg, s) && q in s.workers && q != r
    ensures UploaderSound(cfg, DoCall(cfg, s, r, fate), q)
  {
    CallOnBuckets(cfg, s, r, fate);
    assert UploaderSound(cfg, s, q) && UploaderSound(cfg, s, r);
  }

  lemma CallKeepsBucket(cfg: Config, s: Sys, r: nat, fate: Fate, m: string)
    requires Busy(s, r) && BucketsSound(cfg, s)
    ensures BucketSound(cfg, DoCall(cfg, s, r, fate), m)
  {
    CallOnBuckets(cfg, s, r, fate);
    assert BucketSound(cfg, s, m) && UploaderSound(cfg, s, r);
    var st := s.workers[r].st;
    if st.At? && st.pc.AiUpload? && st.pc.minio == m {
      assert cfg.models[..st.pc.i + 1] <= cfg.models;
    }
  }

  lemma StepKeepsBuckets(cfg: Config, s: Sys, step: Step)
    requires Enabled(s, step) && BucketsSound(cfg, s)
    ensures BucketsSound(cfg, Apply(cfg, s, step))
  {
    var s' := Apply(cfg, s, step);
    forall m ensures BucketSound(cfg, s', m) {
      assert BucketSound(cfg, s, m);
      if step.Call? { CallKeepsBucket(cfg, s, step.r, step.fate, m); }
    }
    forall q | q in s'.workers ensures UploaderSound(cfg, s', q) {
      assert q in s.workers ==> UploaderSound(cfg, s, q);
      if step.Call? {
        if q == step.r {
          CallKeepsUploader(cfg, s, q, step.fate);
        } else {
          CallKeepsOthers(cfg, s, step.r, step.fate, q);
        }
      }
    }
  }

  lemma {:induction false} RunKeepsBuckets(cfg: Config, s: Sys, steps: seq<Step>)
    requires Valid(cfg, s, steps) && BucketsSound(cfg, s)
    ensures BucketsSound(cfg, Run(cfg, s, steps))
    decreases |steps|
  {
    if |steps| > 0 {
      StepKeepsBuckets(cfg, s, steps[0]);
      RunKeepsBuckets(cfg, Apply(cfg, s, steps[0]), steps[1..]);
    }
  }

  /** Passes are numbered: no two workers have the same number, and all are below the next one. */
  ghost predicate Numbered(s: Sys) {
    && (forall r :: r in s.workers ==> s.workers[r].pass < s.passes)
    && (forall r, q :: r in s.workers && q in s.workers && s.workers[r].pass == s.workers[q].pass ==> r == q)
  }

  /** No bucket so far, and nobody uploading to one. */
  ghost predicate NoBucketYet(s: Sys) {
    && s.w.buckets == map[] && s.h.finished == {} && s.h.lost == {}
    && forall r :: r in s.workers && s.workers[r].st.At? ==> !s.workers[r].st.pc.AiUpload?
  }

  /** The bucket is written by one pass. In every run from a cluster without a bucket, whatever else is there and under
      way, the upload log is a prefix of the model walk; it is the whole walk exactly if the walk finished without error
      or the reply to its very last write was lost, and not both; and the next step adds to it only if it belongs to the
      pass that made the bucket. */
  lemma {:induction false} BucketIsWrittenByOnePass(cfg: Config, s: Sys, steps: seq<Step>, next: Step, minio: string)
    requires NoBucketYet(s) && Numbered(s) && Valid(cfg, s, steps) && Enabled(Run(cfg, s, steps), next)
    requires minio in Run(cfg, s, steps).w.buckets
    ensures var s1 := Run(cfg, s, steps); var s2 := Apply(cfg, s1, next);
            && s1.w.buckets[minio] <= cfg.models
            && (s1.w.buckets[minio] == cfg.models <==> minio in s1.h.finished || minio in s1.h.lost)
            && !(minio in s1.h.finished && minio in s1.h.lost)
            && minio in s2.w.buckets
            && (s2.w.buckets[minio] != s1.w.buckets[minio] ==>
                 next.Call? && minio in s1.h.makers && s1.workers[next.r].pass == s1.h.makers[minio])
  {
    assert BucketsSound(cfg, s);
    RunKeepsBuckets(cfg, s, steps);
    var s1 := Run(cfg, s, steps);
    assert BucketSound(cfg, s1, minio);
    if next.Call? {
      CallOnBuckets(cfg, s1, next.r, next.fate);
      assert UploaderSound(cfg, s1, next.r);
    }
  }
}

/** A bucket can be complete although the walk over the models failed: for every configuration there is a run from a
    pristine cluster in which the reply to the last write gets lost. */
module LostReply {
  import opened Options
  import opened Store
  import opened Protocol
  import opened System
  import Writes
  import opened Passes

  const READY := Status(Some(Condition(ConditionTrue, "")), "", None)
  const ALL_READY: Readings := (k: Key) => READY

  /** A cluster that holds a custom resource and the storage secret, and nothing else. */
  function Initial(cr: CR, secret: Secret): Sys {
    Sys(World(map[cr.id := cr], map[], map[(cr.id.ns, MINIO_SECRET) := secret], map[], {}), map[], 0, NO_HISTORY)
  }

  predicate BeforeLastWrite(cfg: Config, pc: Pc) {
    (pc.AiMakeBucket? && |cfg.models| == 0) || (pc.AiUpload? && pc.i + 1 == |cfg.models|)
  }

  /** The pass of worker 0 is on its way to the last write, with everything it needs. */
  ghost predicate OnWay(cfg: Config, cr: CR, secret: Secret, s: Sys) {
    0 in s.workers && AtOnWay(cfg, cr, secret, s.w, s.workers[0].st)
  }

  ghost predicate AtOnWay(cfg: Config, cr: CR, secret: Secret, w: World, st: Worker) {
    && w.crs == map[cr.id := cr] && w.secrets == map[(cr.id.ns, MINIO_SECRET) := secret] && MinioEndpoint(secret).Some?
    && match st
       case Stop(_, _, _) => false
       case Fetch(id) => id == cr.id && w.buckets == map[]
       case At(c, pc, _) => c == cr && PcOnWay(cfg, cr, MinioEndpoint(secret).value, w, pc)
  }

  ghost predicate PcOnWay(cfg: Config, cr: CR, minio: string, w: World, pc: Pc) {
    && (if pc.AiUpload? then pc.i < |cfg.models| && w.buckets == map[minio := cfg.models[..pc.i]]
        else w.buckets == map[])
    && match pc
       case Look(s, rd) => IsGate(s) && rd.NoReading?
       case Make(s, rd) => IsGate(s) && rd.NoReading? && Key(s, cr.id.ns) !in w.objects
       case Reread(s) => IsGate(s) && Key(s, cr.id.ns) in w.objects
       case AiSecret => true
       case AiBucketQuery(m) => m == minio
       case AiMakeBucket(m) => m == minio
       case AiUpload(m, _) => m == minio
       case _ => false
  }

  lemma GateOnWay(cfg: Config, cr: CR, secret: Secret, w: World, st: Worker)
    requires AtOnWay(cfg, cr, secret, w, st) && st.At? && !InAi(st.pc)
    requires forall k :: k in w.objects ==> w.objects[k].status == READY
    ensures var (w', r) := Exec(w, Request(cfg, st)); AtOnWay(cfg, cr, secret, w', ResumeObject(cfg, st, r))
  {
  }

  lemma UploadOnWay(cfg: Config, cr: CR, secret: Secret, w: World, st: Worker)
    requires AtOnWay(cfg, cr, secret, w, st) && st.At? && InAi(st.pc) && !BeforeLastWrite(cfg, st.pc)
    ensures var (w', r) := Exec(w, Request(cfg, st)); AtOnWay(cfg, cr, secret, w', ResumeAi(cfg, st, r))
  {
    if st.pc.AiUpload? {
      assert cfg.models[..st.pc.i] + [cfg.models[st.pc.i]] == cfg.models[..st.pc.i + 1];
    }
  }

  lemma CallOnWay(cfg: Config, cr: CR, secret: Secret, s: Sys)
    requires OnWay(cfg, cr, secret, s) && (s.workers[0].st.At? ==> !BeforeLastWrite(cfg, s.workers[0].st.pc))
    requires forall k :: k in s.w.objects ==> s.w.objects[k].status == READY
    ensures var s' := DoCall(cfg, s, 0, Fine);
            OnWay(cfg, cr, secret, s') && Site(cfg, s'.workers[0].st) < Site(cfg, s.workers[0].st)
  {
    var st := s.workers[0].st;
    ResumeDescends(cfg, st, Exec(s.w, Request(cfg, st)).1);
    if st.At? {
      if InAi(st.pc) { UploadOnWay(cfg, cr, secret, s.w, st); } else { GateOnWay(cfg, cr, secret, s.w, st); }
    }
  }

  /** The statuses settle and the call goes well. */
  lemma MoveOnWay(cfg: Config, cr: CR, secret: Secret, s: Sys) returns (steps: seq<Step>)
    requires OnWay(cfg, cr, secret, s) && (s.workers[0].st.At? ==> !BeforeLastWrite(cfg, s.workers[0].st.pc))
    requires KeyedCrs(s.w)
    ensures Valid(cfg, s, steps)
    ensures var s' := Run(cfg, s, steps);
            OnWay(cfg, cr, secret, s') && KeyedCrs(s'.w) && Site(cfg, s'.workers[0].st) < Site(cfg, s.workers[0].st)
  {
    var w1 := SettleAll(ALL_READY, s.w);
    SettledIsUndisturbed(ALL_READY, (k: Key) => true, s.w);
    OneStep(cfg, s, Environment(w1));
    var s1 := Apply(cfg, s, Environment(w1));
    CallOnWay(cfg, cr, secret, s1);
    OneStep(cfg, s1, Call(0, Fine));
    RunConcat(cfg, s, [Environment(w1)], [Call(0, Fine)]);
    steps := [Environment(w1)] + [Call(0, Fine)];
  }

  lemma {:induction false} Approach(cfg: Config, cr: CR, secret: Secret, s: Sys) returns (steps: seq<Step>)
    requires OnWay(cfg, cr, secret, s) && KeyedCrs(s.w)
    ensures Valid(cfg, s, steps)
    ensures var s' := Run(cfg, s, steps);
            OnWay(cfg, cr, secret, s') && s'.workers[0].st.At? && BeforeLastWrite(cfg, s'.workers[0].st.pc)
    decreases Site(cfg, s.workers[0].st)
  {
    if s.workers[0].st.At? && BeforeLastWrite(cfg, s.workers[0].st.pc) {
      steps := [];
    } else {
      var first := MoveOnWay(cfg, cr, secret, s);
      var rest := Approach(cfg, cr, secret, Run(cfg, s, first));
      RunConcat(cfg, s, first, rest);
      steps := first + rest;
    }
  }

  /** For every configuration, custom resource and usable storage secret: a run after which the bucket holds all the
      models, and yet the walk has failed and never counts as finished. */
  lemma CompleteButFailed(cfg: Config, cr: CR, secret: Secret) returns (steps: seq<Step>)
    requires MinioEndpoint(secret).Some?
    ensures Pristine(Initial(cr, secret)) && Valid(cfg, Initial(cr, secret), steps)
    ensures var s, minio := Run(cfg, Initial(cr, secret), steps), MinioEndpoint(secret).value;
            && minio in s.w.buckets && s.w.buckets[minio] == cfg.models
            && minio in s.h.lost && minio !in s.h.finished
            && 0 in s.workers && s.workers[0].st.At? && s.workers[0].st.pc == Look(KafkaTopic(Raw), NoReading)
  {
    var s0, minio := Initial(cr, secret), MinioEndpoint(secret).value;
    OneStep(cfg, s0, Begin(0, cr.id));
    var s1 := Apply(cfg, s0, Begin(0, cr.id));
    var middle := Approach(cfg, cr, secret, s1);
    RunConcat(cfg, s0, [Begin(0, cr.id)], middle);
    var before := [Begin(0, cr.id)] + middle;
    var s2 := Run(cfg, s0, before);
    OneStep(cfg, s2, Call(0, ReplyLost));
    RunConcat(cfg, s0, before, [Call(0, ReplyLost)]);
    steps := before + [Call(0, ReplyLost)];
    LastWriteCompletes(cfg, cr, secret, s2);
    assert Run(cfg, s0, steps) == DoCall(cfg, s2, 0, ReplyLost);
    Writes.RunKeepsBuckets(cfg, s0, steps);
    assert Writes.BucketSound(cfg, Run(cfg, s0, steps), minio);
  }

  lemma LastWriteCompletes(cfg: Config, cr: CR, secret: Secret, s: Sys)
    requires OnWay(cfg, cr, secret, s) && s.workers[0].st.At? && BeforeLastWrite(cfg, s.workers[0].st.pc)
    ensures var s', minio := DoCall(cfg, s, 0, ReplyLost), MinioEndpoint(secret).value;
            && minio in s'.w.buckets && s'.w.buckets[minio] == cfg.models && minio in s'.h.lost
            && s'.workers[0].st.At? && s'.workers[0].st.pc == Look(KafkaTopic(Raw), NoReading)
  {
    var st, minio := s.workers[0].st, MinioEndpoint(secret).value;
    var w' := DoCall(cfg, s, 0, ReplyLost).w;
    if st.pc.AiUpload? {
      assert cfg.models[..st.pc.i] + [cfg.models[st.pc.i]] == cfg.models;
      assert |s.w.buckets[minio]| != |w'.buckets[minio]|;
    } else {
      assert minio !in s.w.buckets && minio in w'.buckets;
    }
  }
}

/** Any number of workers reconciling any number of custom resources against one cluster, one API call at a time,
    among crashes, failing calls and everything that users and other operators do. */
module System {
  import opened Options
  import opened Store
  import opened Protocol

  /** `pass` numbers the passes of all workers; `answer` is the status that the pass was answered with when it asked for
      the AIDeployment to get the predictor URL, None if the call failed or there was none. */
  datatype Running = Running(st: Worker, pass: nat, answer: Option<Status>)

  /** What has happened: objects created and deleted, indices dropped, gates that a pass has read back as Ready and
      other objects that it has read back, with which custom resource and which answer about the AIDeployment each
      namespace's task was created, which pass made each bucket, whose upload finished, and for which bucket the reply
      to the very write that completed it got lost. */
  datatype History = History(
    creates: multiset<Key>,
    deletes: multiset<Key>,
    dropped: multiset<(string, Topic)>,
    confirmed: set<Key>,
    tasks: map<string, (CR, Option<Status>)>,
    makers: map<string, nat>,
    finished: set<string>,
    lost: set<string>)

  datatype Sys = Sys(w: World, workers: map<nat, Running>, passes: nat, h: History)

  datatype Step =
    | Begin(r: nat, id: CRName)
    | Call(r: nat, fate: Fate)
    | Crash(r: nat)
    | Environment(next: World)

  const NO_HISTORY := History(multiset{}, multiset{}, multiset{}, {}, map[], map[], {}, {})

  predicate Busy(s: Sys, r: nat) { r in s.workers && !s.workers[r].st.Stop? }

  ghost predicate Enabled(s: Sys, step: Step) {
    match step
    case Begin(r, _) => !Busy(s, r)
    case Call(r, _) => Busy(s, r)
    case Crash(r) => Busy(s, r)
    case Environment(w') => Tampered(s.w, w')
  }

  function IdOf(st: Worker): CRName { if st.At? then st.cr.id else st.id }

  /** The answer to a second Get that lets a pass go on. */
  predicate Confirms(s: Slot, reply: Reply) {
    && reply.Found?
    && (s in {Cartridge, AutomationBase, CartridgeRequirements} ==>
         reply.obj.status.ready.Some? && reply.obj.status.ready.value.status.ConditionTrue?)
  }

  function Record(models: seq<string>, h: History, run: Running, st': Worker, op: Op, fate: Fate, w: World, w': World,
      reply: Reply): History {
    var landed := op.Create? && op.key !in w.objects && op.key in w'.objects;
    h.(
    creates := if landed then h.creates + multiset{op.key} else h.creates,
    confirmed := if run.st.At? && run.st.pc.Reread? && op.Get? && Confirms(op.key.slot, reply)
                 then h.confirmed + {op.key} else h.confirmed,
    tasks := if landed && op.key.slot.EventProcessingTask? && run.st.At?
             then h.tasks[op.key.ns := (run.st.cr, run.answer)] else h.tasks,
    makers := if op.MakeBucket? && op.minio !in w.buckets && op.minio in w'.buckets
              then h.makers[op.minio := run.pass] else h.makers,
    finished := if (op.MakeBucket? || op.PutObject?) && reply.Done? && st'.At? && st'.pc.AiStatus?
                then h.finished + {op.minio} else h.finished,
    lost := if (op.MakeBucket? || op.PutObject?) && fate.ReplyLost? && w'.buckets != w.buckets
               && op.minio in w'.buckets && w'.buckets[op.minio] == models
            then h.lost + {op.minio} else h.lost)
  }

  function StatusNow(w: World, k: Key): Option<Status> {
    if k in w.objects then Some(w.objects[k].status) else None
  }

  function DoCall(cfg: Config, s: Sys, r: nat, fate: Fate): Sys
    requires Busy(s, r)
  {
    var run := s.workers[r];
    var op := Request(cfg, run.st);
    var (w', reply) := Attempt(s.w, op, fate);
    var st' := Resume(cfg, run.st, reply);
    var answer := if run.st.At? && run.st.pc.Predict? then
                    (if fate.Fine? then StatusNow(s.w, Key(AIDeployment, run.st.cr.id.ns)) else None)
                  else run.answer;
    Sys(w', s.workers[r := Running(st', run.pass, answer)], s.passes,
        Record(cfg.models, s.h, run, st', op, fate, s.w, w', reply))
  }

  function Apply(cfg: Config, s: Sys, step: Step): Sys
    requires Enabled(s, step)
  {
    match step
    case Begin(r, id) => s.(workers := s.workers[r := Running(Fetch(id), s.passes, None)], passes := s.passes + 1)
    case Call(r, fate) => DoCall(cfg, s, r, fate)
    case Crash(r) =>
      s.(workers := s.workers[r := s.workers[r].(st := Stop(IdOf(s.workers[r].st), Died, BLANK))])
    case Environment(w') =>
      s.(w := w', h := s.h.(deletes := s.h.deletes + multiset(s.w.objects.Keys - w'.objects.Keys),
                            dropped := s.h.dropped + multiset(s.w.indices - w'.indices)))
  }

  /** `steps` can be taken one after the other from `s`. */
  ghost predicate Valid(cfg: Config, s: Sys, steps: seq<Step>)
    decreases |steps|
  {
    |steps| == 0 || (Enabled(s, steps[0]) && Valid(cfg, Apply(cfg, s, steps[0]), steps[1..]))
  }

  ghost function Run(cfg: Config, s: Sys, steps: seq<Step>): Sys
    requires Valid(cfg, s, steps)
    decreases |steps|
  {
    if |steps| == 0 then s else Run(cfg, Apply(cfg, s, steps[0]), steps[1..])
  }

  /** Nobody deletes an object or an index on the way. */
  ghost predicate Gentle(cfg: Config, s: Sys, steps: seq<Step>)
    requires Valid(cfg, s, steps)
    decreases |steps|
  {
    |steps| == 0 || (GentleStep(s, steps[0]) && Gentle(cfg, Apply(cfg, s, steps[0]), steps[1..]))
  }

  ghost predicate GentleStep(s: Sys, step: Step) { step.Environment? ==> Undisturbed(s.w, step.next) }

  /** A cluster that no reconciler has touched. */
  ghost predicate Pristine(s: Sys) {
    s.w.objects == map[] && s.w.buckets == map[] && KeyedCrs(s.w) && s.workers == map[] && s.h == NO_HISTORY
  }

  lemma {:induction false} RunConcat(cfg: Config, s: Sys, a: seq<Step>, b: seq<Step>)
    requires Valid(cfg, s, a) && Valid(cfg, Run(cfg, s, a), b)
    ensures Valid(cfg, s, a + b) && Run(cfg, s, a + b) == Run(cfg, Run(cfg, s, a), b)
    ensures Gentle(cfg, s, a + b) <==> Gentle(cfg, s, a) && Gentle(cfg, Run(cfg, s, a), b)
    decreases |a|
  {
    if |a| == 0 {
      assert a + b == b;
    } else {
      RunConcat(cfg, Apply(cfg, s, a[0]), a[1..], b);
      assert (a + b)[1..] == a[1..] + b;
    }
  }

  /** A run can be cut anywhere. */
  lemma {:induction false} RunSplit(cfg: Config, s: Sys, a: seq<Step>, b: seq<Step>)
    requires Valid(cfg, s, a + b)
    ensures Valid(cfg, s, a) && Valid(cfg, Run(cfg, s, a), b) && Run(cfg, Run(cfg, s, a), b) == Run(cfg, s, a + b)
    decreases |a|
  {
    if |a| == 0 {
      assert a + b == b;
    } else {
      assert (a + b)[1..] == a[1..] + b;
      RunSplit(cfg, Apply(cfg, s, a[0]), a[1..], b);
    }
  }
}

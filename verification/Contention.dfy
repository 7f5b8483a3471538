/** Convergence in a crowd: any number of other reconcilers, for the same or other custom resources, work in the same
    cluster. What they make helps, but for what they make between a Get of this reconciler and the Create that follows:
    then the Create is answered with AlreadyExists and the pass fails. */
module Contention {
  import opened Store
  import opened Protocol
  import opened System
  import Safety
  import opened Stages
  import opened Passes
  import opened Convergence

  /** The other operators only fill in the statuses they have in store; nothing is deleted. */
  ghost predicate CalmStep(given: Readings, s: Sys, step: Step) {
    step.Environment? ==>
      && Undisturbed(s.w, step.next) && step.next.crs == s.w.crs && step.next.secrets == s.w.secrets
      && forall k :: k in s.w.objects ==>
           step.next.objects[k].status == s.w.objects[k].status || step.next.objects[k].status == given(k)
  }

  ghost predicate Calm(cfg: Config, given: Readings, s: Sys, steps: seq<Step>)
    requires Valid(cfg, s, steps)
    decreases |steps|
  {
    |steps| == 0 || (CalmStep(given, s, steps[0]) && Calm(cfg, given, Apply(cfg, s, steps[0]), steps[1..]))
  }

  /** The pass has found the object missing and will create it. */
  predicate Pending(st: Worker, k: Key) {
    st.At? && k.ns == st.cr.id.ns &&
    match st.pc
    case Make(s, _) => k.slot == s
    case Predict(seen) => seen.SeenNothing? && k.slot.EventProcessingTask?
    case AiKfSecret => k.slot.AIDeployment?
    case AiCreate(_) => k.slot.AIDeployment?
    case _ => false
  }

  /** A call of this worker goes wrong, or its process dies. */
  predicate Fault(step: Step, r: nat) {
    (step.Call? && step.r == r && !step.fate.Fine?) || (step.Crash? && step.r == r)
  }

  /** Another worker makes what this one has found missing and will create. */
  predicate Collision(cfg: Config, s: Sys, step: Step, r: nat) {
    r in s.workers && step.Call? && step.r != r && Busy(s, step.r) &&
    var op := Request(cfg, s.workers[step.r].st);
    op.Create? && op.key !in s.w.objects && !step.fate.Refused? && Pending(s.workers[r].st, op.key)
  }

  /** How many faults and collisions a worker meets. */
  function Trouble(cfg: Config, s: Sys, steps: seq<Step>, r: nat): nat
    requires Valid(cfg, s, steps)
    decreases |steps|
  {
    if |steps| == 0 then 0 else
    (if Fault(steps[0], r) || Collision(cfg, s, steps[0], r) then 1 else 0)
      + Trouble(cfg, Apply(cfg, s, steps[0]), steps[1..], r)
  }

  // ---------- steps of others ----------

  lemma CalmKeepsTrack(given: Readings, s: Sys, w': World, st: Worker, m: nat)
    requires CalmStep(given, s, Environment(w')) && OnTrack(given, s.w, st, m)
    ensures OnTrack(given, w', st, m)
  {
    assert w'.objects.Keys == s.w.objects.Keys;
  }

  lemma SameKeepsTrack(given: Readings, w: World, w': World, st: Worker, m: nat)
    requires w'.objects == w.objects && w'.secrets == w.secrets && w'.crs == w.crs && OnTrack(given, w, st, m)
    ensures OnTrack(given, w', st, m)
  {
    SameObjects(given, w, w', IdOf(st).ns, m);
  }

  /** An object made in another namespace. */
  lemma FarCreateKeepsTrack(given: Readings, w: World, w': World, k: Key, o: Object, st: Worker, m: nat)
    requires k !in w.objects && w'.objects == w.objects[k := o] && o.status == EMPTY_STATUS && k.ns != IdOf(st).ns
    requires w'.secrets == w.secrets && w'.crs == w.crs && OnTrack(given, w, st, m)
    ensures OnTrack(given, w', st, m)
  {
    var ns := IdOf(st).ns;
    assert forall s :: Key(s, ns) in w'.objects <==> Key(s, ns) in w.objects;
    assert Settling(given, w');
  }

  /** An object made in the pass's own namespace that it does not reckon with. */
  lemma NearCreateKeepsTrack(given: Readings, w: World, w': World, k: Key, o: Object, st: Worker, m: nat)
    requires k !in w.objects && w'.objects == w.objects[k := o] && o.status == EMPTY_STATUS && k.ns == IdOf(st).ns
    requires w'.secrets == w.secrets && w'.crs == w.crs && OnTrack(given, w, st, m) && !Pending(st, k)
    ensures OnTrack(given, w', st, m)
  {
    CreateKeepsSettling(given, w, w', k, o);
    if !st.Stop? { CreateClosesGap(given, w, w', k.slot, k.ns, o, m); }
  }

  lemma NewObjectIsBlank(cfg: Config, st: Worker)
    requires !st.Stop? && Request(cfg, st).Create?
    ensures Request(cfg, st).obj.status == EMPTY_STATUS
  {
  }

  lemma OtherCallKeepsTrack(cfg: Config, given: Readings, s: Sys, q: nat, fate: Fate, st: Worker, m: nat)
    requires Busy(s, q) && OnTrack(given, s.w, st, m)
    requires var op := Request(cfg, s.workers[q].st);
             op.Create? && op.key !in s.w.objects && !fate.Refused? ==> !Pending(st, op.key)
    ensures OnTrack(given, DoCall(cfg, s, q, fate).w, st, m)
  {
    var op, w' := Request(cfg, s.workers[q].st), DoCall(cfg, s, q, fate).w;
    Safety.CallCreatesAtMostOne(cfg, s, q, fate);
    Safety.AttemptKeepsInputs(s.w, op, fate);
    if op.Create? && op.key !in s.w.objects && op.key in w'.objects {
      NewObjectIsBlank(cfg, s.workers[q].st);
      if op.key.ns == IdOf(st).ns { NearCreateKeepsTrack(given, s.w, w', op.key, op.obj, st, m); }
      else { FarCreateKeepsTrack(given, s.w, w', op.key, op.obj, st, m); }
    } else {
      SameKeepsTrack(given, s.w, w', st, m);
    }
  }

  // ---------- one pass ----------

  lemma OwnCallKeepsTrack(cfg: Config, given: Readings, s: Sys, r: nat, m: nat)
    requires Busy(s, r) && Place(cfg, s.w, s.h.confirmed, s.workers[r].st) && OnTrack(given, s.w, s.workers[r].st, m)
    ensures var s' := DoCall(cfg, s, r, Fine);
            OnTrack(given, s'.w, s'.workers[r].st, m) && IdOf(s'.workers[r].st) == IdOf(s.workers[r].st)
  {
    var st := s.workers[r].st;
    if st.At? && st.pc.Reread? { assert Mandatory(cfg, st.pc.slot); }
    CallOnTrack(cfg, given, s.w, st, m);
    KeepsId(cfg, s.w, st);
  }

  lemma StepKeepsTrack(cfg: Config, given: Readings, s: Sys, step: Step, r: nat, m: nat)
    requires Enabled(s, step) && CalmStep(given, s, step) && !(step.Begin? && step.r == r)
    requires !Fault(step, r) && !Collision(cfg, s, step, r)
    requires r in s.workers && Place(cfg, s.w, s.h.confirmed, s.workers[r].st)
    requires OnTrack(given, s.w, s.workers[r].st, m)
    ensures var s' := Apply(cfg, s, step);
            OnTrack(given, s'.w, s'.workers[r].st, m) && IdOf(s'.workers[r].st) == IdOf(s.workers[r].st)
  {
    match step {
      case Begin(_, _) =>
      case Crash(_) =>
      case Environment(w') => CalmKeepsTrack(given, s, w', s.workers[r].st, m);
      case Call(q, fate) =>
        if q == r { OwnCallKeepsTrack(cfg, given, s, r, m); }
        else { OtherCallKeepsTrack(cfg, given, s, q, fate, s.workers[r].st, m); }
    }
  }

  ghost predicate BeginsNothing(steps: seq<Step>, r: nat) {
    forall i :: 0 <= i < |steps| ==> !(steps[i].Begin? && steps[i].r == r)
  }

  lemma {:induction false} UntroubledKeepsTrack(cfg: Config, given: Readings, s: Sys, steps: seq<Step>, r: nat, m: nat)
    requires Valid(cfg, s, steps) && Calm(cfg, given, s, steps) && BeginsNothing(steps, r)
    requires Trouble(cfg, s, steps, r) == 0
    requires r in s.workers && Place(cfg, s.w, s.h.confirmed, s.workers[r].st)
    requires OnTrack(given, s.w, s.workers[r].st, m)
    ensures var s' := Run(cfg, s, steps);
            r in s'.workers && OnTrack(given, s'.w, s'.workers[r].st, m)
              && IdOf(s'.workers[r].st) == IdOf(s.workers[r].st)
    decreases |steps|
  {
    if |steps| > 0 {
      var s1 := Apply(cfg, s, steps[0]);
      assert !(steps[0].Begin? && steps[0].r == r);
      StepKeepsTrack(cfg, given, s, steps[0], r, m);
      StepPlacedOne(cfg, s, steps[0], r);
      assert forall i :: 0 <= i < |steps[1..]| ==> steps[1..][i] == steps[i + 1];
      UntroubledKeepsTrack(cfg, given, s1, steps[1..], r, m);
    }
  }

  /** What every pass keeps, troubled or not. */
  ghost predicate Keeps(given: Readings, id: CRName, s: Sys, s': Sys) {
    && s'.w.crs == s.w.crs && Settling(given, s'.w) && Ripe(given, s'.w, id.ns)
    && Missing(s'.w, id.ns) <= Missing(s.w, id.ns)
  }

  lemma StepKeeps(cfg: Config, given: Readings, id: CRName, s: Sys, step: Step)
    requires Enabled(s, step) && CalmStep(given, s, step) && Settling(given, s.w) && Ripe(given, s.w, id.ns)
    ensures Keeps(given, id, s, Apply(cfg, s, step))
  {
    var s' := Apply(cfg, s, step);
    if step.Call? {
      var op := Request(cfg, s.workers[step.r].st);
      Safety.CallCreatesAtMostOne(cfg, s, step.r, step.fate);
      Safety.AttemptKeepsInputs(s.w, op, step.fate);
      if op.Create? { NewObjectIsBlank(cfg, s.workers[step.r].st); }
    }
    assert s.w.objects.Keys <= s'.w.objects.Keys;
  }

  lemma {:induction false} RunKeeps(cfg: Config, given: Readings, id: CRName, s: Sys, steps: seq<Step>)
    requires Valid(cfg, s, steps) && Calm(cfg, given, s, steps) && Settling(given, s.w) && Ripe(given, s.w, id.ns)
    ensures Keeps(given, id, s, Run(cfg, s, steps))
    decreases |steps|
  {
    if |steps| > 0 {
      StepKeeps(cfg, given, id, s, steps[0]);
      RunKeeps(cfg, given, id, Apply(cfg, s, steps[0]), steps[1..]);
    }
  }

  /** A stretch of a run in which worker r makes one pass for `id`, from its beginning to some point after its end. When
      it begins, the awaited objects that are there have the statuses in store. */
  ghost predicate IsPass(cfg: Config, given: Readings, s: Sys, steps: seq<Step>, r: nat, id: CRName) {
    && |steps| > 0 && steps[0] == Begin(r, id) && BeginsNothing(steps[1..], r)
    && Valid(cfg, s, steps) && Calm(cfg, given, s, steps)
    && AwaitedSettled(given, s.w, id.ns)
    && r in Run(cfg, s, steps).workers && Run(cfg, s, steps).workers[r].st.Stop?
  }

  lemma {:induction false} UntroubledPass(cfg: Config, given: Readings, s: Sys, steps: seq<Step>, r: nat, id: CRName)
    requires IsPass(cfg, given, s, steps, r, id) && Trouble(cfg, s, steps, r) == 0
    requires id in s.w.crs && s.w.crs[id].id == id && Settling(given, s.w) && Ripe(given, s.w, id.ns)
    ensures var s' := Run(cfg, s, steps); Succeeds(s', r) || Missing(s'.w, id.ns) < Missing(s.w, id.ns)
  {
    var s1 := Apply(cfg, s, steps[0]);
    BeginsOnTrack(given, s.w, id);
    FreshPlace(cfg, s1.w, id);
    PlaceGrows(cfg, s1.w, s1.w, {}, s1.h.confirmed, Fetch(id));
    UntroubledKeepsTrack(cfg, given, s1, steps[1..], r, Missing(s.w, id.ns));
  }

  /** A pass that meets neither fault nor collision succeeds, or a gap has closed meanwhile. */
  lemma {:induction false} OnePassInCrowd(cfg: Config, given: Readings, s: Sys, steps: seq<Step>, r: nat, id: CRName)
    requires IsPass(cfg, given, s, steps, r, id)
    requires id in s.w.crs && s.w.crs[id].id == id && Settling(given, s.w) && Ripe(given, s.w, id.ns)
    ensures Keeps(given, id, s, Run(cfg, s, steps))
    ensures Trouble(cfg, s, steps, r) == 0 ==>
              Succeeds(Run(cfg, s, steps), r) || Missing(Run(cfg, s, steps).w, id.ns) < Missing(s.w, id.ns)
  {
    RunKeeps(cfg, given, id, s, steps);
    if Trouble(cfg, s, steps, r) == 0 { UntroubledPass(cfg, given, s, steps, r, id); }
  }

  // ---------- many passes ----------

  ghost predicate ArePasses(cfg: Config, given: Readings, s: Sys, passes: seq<seq<Step>>, r: nat, id: CRName)
    decreases |passes|
  {
    |passes| == 0 ||
    (IsPass(cfg, given, s, passes[0], r, id) && ArePasses(cfg, given, Run(cfg, s, passes[0]), passes[1..], r, id))
  }

  ghost predicate OneSucceeds(cfg: Config, given: Readings, s: Sys, passes: seq<seq<Step>>, r: nat, id: CRName)
    requires ArePasses(cfg, given, s, passes, r, id)
    decreases |passes|
  {
    |passes| > 0 &&
    (Succeeds(Run(cfg, s, passes[0]), r) || OneSucceeds(cfg, given, Run(cfg, s, passes[0]), passes[1..], r, id))
  }

  ghost function AllTrouble(cfg: Config, given: Readings, s: Sys, passes: seq<seq<Step>>, r: nat, id: CRName): nat
    requires ArePasses(cfg, given, s, passes, r, id)
    decreases |passes|
  {
    if |passes| == 0 then 0 else
    Trouble(cfg, s, passes[0], r) + AllTrouble(cfg, given, Run(cfg, s, passes[0]), passes[1..], r, id)
  }

  lemma {:induction false} TroubleBoundsPasses(cfg: Config, given: Readings, s: Sys, passes: seq<seq<Step>>, r: nat,
      id: CRName)
    requires ArePasses(cfg, given, s, passes, r, id)
    requires id in s.w.crs && s.w.crs[id].id == id && Settling(given, s.w) && Ripe(given, s.w, id.ns)
    requires |passes| >= Missing(s.w, id.ns) + 1 + AllTrouble(cfg, given, s, passes, r, id)
    ensures OneSucceeds(cfg, given, s, passes, r, id)
    decreases |passes|
  {
    OnePassInCrowd(cfg, given, s, passes[0], r, id);
    var s1 := Run(cfg, s, passes[0]);
    if !Succeeds(s1, r) { TroubleBoundsPasses(cfg, given, s1, passes[1..], r, id); }
  }

  /** Bounded convergence in a crowd. In any run of the system, among any number of other reconcilers, let one worker
      make passes for one custom resource. If nothing is deleted, and the other operators fill in ripe statuses by the
      time the next pass begins, then 5 + f + c passes are enough for one to succeed, f being its faults and c the
      objects that others made between its Get and its Create. */
  lemma {:induction false} ConvergenceInCrowd(cfg: Config, given: Readings, s: Sys, passes: seq<seq<Step>>, r: nat,
      id: CRName)
    requires ArePasses(cfg, given, s, passes, r, id)
    requires id in s.w.crs && s.w.crs[id].id == id && Settling(given, s.w) && Ripe(given, s.w, id.ns)
    requires |passes| >= 5 + AllTrouble(cfg, given, s, passes, r, id)
    ensures OneSucceeds(cfg, given, s, passes, r, id)
  {
    TroubleBoundsPasses(cfg, given, s, passes, r, id);
  }
}

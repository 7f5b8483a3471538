/** What holds in every run, whatever the interleaving: objects are created once and never rewritten, carry their
    custom resource as owner, and stay inside its namespace. */
module Safety {
  import opened Options
  import opened Store
  import opened Protocol
  import opened System

  function Count(present: bool): nat { if present then 1 else 0 }

  /** One call changes the objects by at most one creation of an absent key. */
  lemma CallCreatesAtMostOne(cfg: Config, s: Sys, r: nat, fate: Fate)
    requires Busy(s, r)
    ensures var op, s' := Request(cfg, s.workers[r].st), DoCall(cfg, s, r, fate);
            if op.Create? && op.key !in s.w.objects && op.key in s'.w.objects
            then s'.w.objects == s.w.objects[op.key := op.obj] && s'.h.creates == s.h.creates + multiset{op.key}
            else s'.w.objects == s.w.objects && s'.h.creates == s.h.creates
    ensures DoCall(cfg, s, r, fate).h.deletes == s.h.deletes
  {
  }

  /** Creations that landed minus deletions is the number of live objects, for every key and between any two
      points of any run; in particular it is 1 or 0 for a key that starts absent. */
  lemma {:induction false} CreateOnce(cfg: Config, s: Sys, steps: seq<Step>, k: Key)
    requires Valid(cfg, s, steps)
    ensures var s' := Run(cfg, s, steps);
            s'.h.creates[k] - s.h.creates[k] + Count(k in s.w.objects)
            == s'.h.deletes[k] - s.h.deletes[k] + Count(k in s'.w.objects)
    ensures s.h.creates[k] <= Run(cfg, s, steps).h.creates[k] && s.h.deletes[k] <= Run(cfg, s, steps).h.deletes[k]
    decreases |steps|
  {
    if |steps| > 0 {
      if steps[0].Call? { CallCreatesAtMostOne(cfg, s, steps[0].r, steps[0].fate); }
      CreateOnce(cfg, Apply(cfg, s, steps[0]), steps[1..], k);
    }
  }

  /** The first writer wins: as long as nobody deletes an object, it stays, with the spec and owner it was born with. */
  lemma {:induction false} FirstWriterWins(cfg: Config, s: Sys, steps: seq<Step>, k: Key)
    requires Valid(cfg, s, steps) && k in s.w.objects
    requires Run(cfg, s, steps).h.deletes[k] == s.h.deletes[k]
    ensures var s' := Run(cfg, s, steps);
            k in s'.w.objects && s'.w.objects[k].spec == s.w.objects[k].spec
              && s'.w.objects[k].owner == s.w.objects[k].owner
    decreases |steps|
  {
    if |steps| > 0 {
      if steps[0].Call? { CallCreatesAtMostOne(cfg, s, steps[0].r, steps[0].fate); }
      var s1 := Apply(cfg, s, steps[0]);
      CreateOnce(cfg, s1, steps[1..], k);
      assert s.h.deletes[k] <= s1.h.deletes[k];
      FirstWriterWins(cfg, s1, steps[1..], k);
    }
  }

  // ---------- ownership ----------

  /** The custom resources that were in the cluster at some point of a run. */
  ghost function SeenCrs(cfg: Config, s: Sys, steps: seq<Step>): set<CR>
    requires Valid(cfg, s, steps)
    decreases |steps|
  {
    s.w.crs.Values + if |steps| == 0 then {} else SeenCrs(cfg, Apply(cfg, s, steps[0]), steps[1..])
  }

  /** The custom resources that passes under way have read. */
  ghost function Held(s: Sys): set<CR> { set r | r in s.workers && s.workers[r].st.At? :: s.workers[r].st.cr }

  /** The object was built for this custom resource, in its namespace and with it as controller. */
  ghost predicate MadeFor(cfg: Config, cr: CR, k: Key, o: Object) {
    cr.id.ns == k.ns && o.owner == Some(Owner(cr.id, cr.uid))
    && exists rd: Reading :: o.spec == cfg.blueprint(cr, k.slot, rd)
  }

  /** The object was there at the start, is unchanged and was never made anew; or it was made for one of these custom
      resources. */
  ghost predicate Accounted(cfg: Config, start: Sys, crs: set<CR>, s: Sys, k: Key)
    requires k in s.w.objects
  {
    var o := s.w.objects[k];
    || (k in start.w.objects && o.spec == start.w.objects[k].spec && o.owner == start.w.objects[k].owner
        && s.h.creates[k] == start.h.creates[k])
    || exists cr :: cr in crs && MadeFor(cfg, cr, k, o)
  }

  ghost predicate AllAccounted(cfg: Config, start: Sys, crs: set<CR>, s: Sys) {
    && s.w.crs.Values <= crs && Held(s) <= crs
    && forall k :: k in s.w.objects ==> Accounted(cfg, start, crs, s, k)
  }

  /** What a pass creates is made for the custom resource that it has read. */
  lemma CreatesForItsOwn(cfg: Config, st: Worker)
    requires !st.Stop? && Request(cfg, st).Create?
    ensures st.At? && MadeFor(cfg, st.cr, Request(cfg, st).key, Request(cfg, st).obj)
  {
    var rd := if st.pc.Make? then st.pc.reading else NoReading;
    assert Request(cfg, st).obj.spec == cfg.blueprint(st.cr, Request(cfg, st).key.slot, rd);
  }

  /** A pass works for a custom resource that is in the cluster when it is read. */
  lemma HoldsWhatItRead(cfg: Config, s: Sys, r: nat, fate: Fate)
    requires Busy(s, r)
    ensures Held(DoCall(cfg, s, r, fate)) <= Held(s) + s.w.crs.Values
  {
    var s', st := DoCall(cfg, s, r, fate), s.workers[r].st;
    var st' := s'.workers[r].st;
    assert st'.At? ==> st'.cr in Held(s) + s.w.crs.Values by {
      if st.Fetch? {
        assert st'.At? ==> st.id in s.w.crs && st'.cr == s.w.crs[st.id];
      } else {
        ResumeKeepsCr(cfg, st, Attempt(s.w, Request(cfg, st), fate).1);
        assert st.cr in Held(s);
      }
    }
    forall cr | cr in Held(s') ensures cr in Held(s) + s.w.crs.Values {
      var q :| q in s'.workers && s'.workers[q].st.At? && s'.workers[q].st.cr == cr;
      if q != r { assert s.workers[q] == s'.workers[q]; }
    }
  }

  lemma CallAccounted(cfg: Config, start: Sys, crs: set<CR>, s: Sys, r: nat, fate: Fate)
    requires Busy(s, r) && AllAccounted(cfg, start, crs, s)
    ensures AllAccounted(cfg, start, crs, DoCall(cfg, s, r, fate))
  {
    var s', op := DoCall(cfg, s, r, fate), Request(cfg, s.workers[r].st);
    CallCreatesAtMostOne(cfg, s, r, fate);
    HoldsWhatItRead(cfg, s, r, fate);
    AttemptKeepsInputs(s.w, op, fate);
    if op.Create? {
      CreatesForItsOwn(cfg, s.workers[r].st);
      assert s.workers[r].st.cr in Held(s);
    }
    forall k | k in s'.w.objects ensures Accounted(cfg, start, crs, s', k) {
      assert k in s.w.objects ==> Accounted(cfg, start, crs, s, k);
    }
  }

  lemma OtherStepAccounted(cfg: Config, start: Sys, crs: set<CR>, s: Sys, step: Step)
    requires Enabled(s, step) && !step.Call? && AllAccounted(cfg, start, crs, s)
    requires Apply(cfg, s, step).w.crs.Values <= crs
    ensures AllAccounted(cfg, start, crs, Apply(cfg, s, step))
  {
    var s' := Apply(cfg, s, step);
    forall cr | cr in Held(s') ensures cr in Held(s) {
      var q :| q in s'.workers && s'.workers[q].st.At? && s'.workers[q].st.cr == cr;
      assert q in s.workers && s.workers[q].st == s'.workers[q].st;
    }
    forall k | k in s'.w.objects ensures Accounted(cfg, start, crs, s', k) {
      assert Accounted(cfg, start, crs, s, k);
    }
  }

  lemma {:induction false} RunAccounted(cfg: Config, start: Sys, crs: set<CR>, s: Sys, steps: seq<Step>)
    requires Valid(cfg, s, steps) && AllAccounted(cfg, start, crs, s) && SeenCrs(cfg, s, steps) <= crs
    ensures AllAccounted(cfg, start, crs, Run(cfg, s, steps))
    decreases |steps|
  {
    if |steps| > 0 {
      var s1 := Apply(cfg, s, steps[0]);
      if steps[0].Call? { CallAccounted(cfg, start, crs, s, steps[0].r, steps[0].fate); }
      else { OtherStepAccounted(cfg, start, crs, s, steps[0]); }
      RunAccounted(cfg, start, crs, s1, steps[1..]);
    }
  }

  /** Whoever runs beside whom, every object is an original, unchanged, that no pass has made anew, or was built for a
      custom resource of its own namespace that was in the cluster during the run (or had been read by a pass before
      it), and has that custom resource as controller. */
  lemma {:induction false} RunIsOwned(cfg: Config, s: Sys, steps: seq<Step>, k: Key)
    requires Valid(cfg, s, steps) && k in Run(cfg, s, steps).w.objects
    ensures Accounted(cfg, s, SeenCrs(cfg, s, steps) + Held(s), Run(cfg, s, steps), k)
  {
    var crs := SeenCrs(cfg, s, steps) + Held(s);
    assert AllAccounted(cfg, s, crs, s);
    RunAccounted(cfg, s, crs, s, steps);
  }

  predicate OwnerGone(w: World, o: Object) {
    o.owner.Some? && !(o.owner.value.id in w.crs && w.crs[o.owner.value.id].uid == o.owner.value.uid)
  }

  /** Garbage collection: objects go when their controller, as identified by name and uid, is not there any more. */
  function Collect(w: World): World {
    w.(objects := map k | k in w.objects && !OwnerGone(w, w.objects[k]) :: w.objects[k])
  }

  /** All custom resources of a namespace deleted. */
  function WithoutCrs(w: World, ns: string): World { w.(crs := map id | id in w.crs && id.ns != ns :: w.crs[id]) }

  /** From any cluster, for every key under which the run has made an object: deleting the custom resources of a
      namespace lets the object be collected if it is there, and not if it is elsewhere and would not have been; and
      if it is collected at any time, it was made for a custom resource that was there during the run (or had been read
      by a pass before it) and is gone. */
  lemma {:induction false} CascadeIsComplete(cfg: Config, s: Sys, steps: seq<Step>, ns: string, k: Key)
    requires Valid(cfg, s, steps) && Run(cfg, s, steps).h.creates[k] > s.h.creates[k]
    ensures var w := Run(cfg, s, steps).w;
            && (k in Collect(WithoutCrs(w, ns)).objects <==> k in Collect(w).objects && k.ns != ns)
            && (k in w.objects && k !in Collect(w).objects ==>
                 exists cr :: cr in SeenCrs(cfg, s, steps) + Held(s) && MadeFor(cfg, cr, k, w.objects[k])
                              && !(cr.id in w.crs && w.crs[cr.id].uid == cr.uid))
  {
    var w := Run(cfg, s, steps).w;
    if k in w.objects {
      RunIsOwned(cfg, s, steps, k);
      var cr :| cr in SeenCrs(cfg, s, steps) + Held(s) && MadeFor(cfg, cr, k, w.objects[k]);
      assert w.objects[k].owner == Some(OwnerOf(cr));
    }
  }

  // ---------- frame ----------

  lemma ResumeKeepsId(cfg: Config, st: Worker, r: Reply)
    requires !st.Stop?
    ensures st.At? ==> IdOf(Resume(cfg, st, r)) == st.cr.id
    ensures st.Fetch? ==> IdOf(Resume(cfg, st, r)) == if r.FoundCR? then r.cr.id else st.id
  {
  }

  lemma ResumeKeepsCr(cfg: Config, st: Worker, r: Reply)
    requires st.At?
    ensures Resume(cfg, st, r).At? ==> Resume(cfg, st, r).cr == st.cr
  {
  }

  lemma AttemptKeepsInputs(w: World, op: Op, fate: Fate)
    ensures var w' := Attempt(w, op, fate).0; w'.crs == w.crs && w'.secrets == w.secrets
  {
  }

  /** A call of a pass for `id` leaves the objects of every other namespace, every secret and every custom resource
      as they are, and the pass stays with `id`. */
  lemma CallStaysHome(cfg: Config, s: Sys, r: nat, fate: Fate)
    requires Busy(s, r) && KeyedCrs(s.w)
    ensures var s', id := DoCall(cfg, s, r, fate), IdOf(s.workers[r].st);
            && IdOf(s'.workers[r].st) == id
            && s'.w.crs == s.w.crs && s'.w.secrets == s.w.secrets
            && (forall k: Key :: k.ns != id.ns ==>
                 (k in s'.w.objects <==> k in s.w.objects) && (k in s.w.objects ==> s'.w.objects[k] == s.w.objects[k]))
  {
    var st := s.workers[r].st;
    CallCreatesAtMostOne(cfg, s, r, fate);
    AttemptKeepsInputs(s.w, Request(cfg, st), fate);
    ResumeKeepsId(cfg, st, Attempt(s.w, Request(cfg, st), fate).1);
  }

  /** A pass for a custom resource that is not there ends at its first call and writes nothing. */
  lemma MissingResourceIsIgnored(cfg: Config, s: Sys, r: nat, fate: Fate)
    requires Busy(s, r) && s.workers[r].st.Fetch? && s.workers[r].st.id !in s.w.crs
    ensures var s' := DoCall(cfg, s, r, fate);
            s'.w == s.w && s'.workers[r].st.Stop?
              && s'.workers[r].st.outcome == (if fate.Fine? then Ignored else Errored)
  {
  }

  ghost predicate NobodyIn(s: Sys, ns: string) { forall r :: Busy(s, r) ==> IdOf(s.workers[r].st).ns != ns }

  ghost predicate NoBeginIn(steps: seq<Step>, ns: string) {
    forall i :: 0 <= i < |steps| && steps[i].Begin? ==> steps[i].id.ns != ns
  }

  lemma StepElsewhere(cfg: Config, s: Sys, step: Step, k: Key)
    requires Enabled(s, step) && KeyedCrs(s.w) && NobodyIn(s, k.ns) && (step.Begin? ==> step.id.ns != k.ns)
    ensures var s' := Apply(cfg, s, step);
            && KeyedCrs(s'.w) && NobodyIn(s', k.ns) && s'.h.creates[k] == s.h.creates[k]
            && (!step.Environment? ==> (k in s'.w.objects <==> k in s.w.objects)
                                       && (k in s.w.objects ==> s'.w.objects[k] == s.w.objects[k]))
  {
    if step.Call? {
      CallStaysHome(cfg, s, step.r, step.fate);
      CallCreatesAtMostOne(cfg, s, step.r, step.fate);
    }
    var s' := Apply(cfg, s, step);
    forall q | Busy(s', q) ensures IdOf(s'.workers[q].st).ns != k.ns {
      assert (step.Begin? && q == step.r) || Busy(s, q);
    }
  }

  lemma {:induction false} NothingMadeElsewhere(cfg: Config, s: Sys, steps: seq<Step>, k: Key)
    requires Valid(cfg, s, steps) && KeyedCrs(s.w) && NobodyIn(s, k.ns) && NoBeginIn(steps, k.ns)
    ensures Run(cfg, s, steps).h.creates[k] == s.h.creates[k]
    decreases |steps|
  {
    if |steps| > 0 {
      StepElsewhere(cfg, s, steps[0], k);
      assert NoBeginIn(steps[1..], k.ns);
      NothingMadeElsewhere(cfg, Apply(cfg, s, steps[0]), steps[1..], k);
    }
  }

  /** Passes leave other namespaces alone. In any run in which no pass is for a namespace, whatever users and other
      operators do there and elsewhere meanwhile, nothing is created in it, and an object is still there, with its spec
      and owner, exactly if nobody deleted it. */
  lemma {:induction false} OtherNamespacesUntouched(cfg: Config, s: Sys, steps: seq<Step>, k: Key)
    requires Valid(cfg, s, steps) && KeyedCrs(s.w) && NobodyIn(s, k.ns) && NoBeginIn(steps, k.ns)
    ensures var s' := Run(cfg, s, steps);
            && s'.h.creates[k] == s.h.creates[k]
            && (k in s'.w.objects <==> k in s.w.objects && s'.h.deletes[k] == s.h.deletes[k])
            && (k in s'.w.objects ==>
                 s'.w.objects[k].spec == s.w.objects[k].spec && s'.w.objects[k].owner == s.w.objects[k].owner)
  {
    NothingMadeElsewhere(cfg, s, steps, k);
    CreateOnce(cfg, s, steps, k);
    if k in Run(cfg, s, steps).w.objects { FirstWriterWins(cfg, s, steps, k); }
  }

  /** Between two things that others do, not even a status changes there. */
  lemma {:induction false} UntouchedToTheStatus(cfg: Config, s: Sys, steps: seq<Step>, k: Key)
    requires Valid(cfg, s, steps) && KeyedCrs(s.w) && NobodyIn(s, k.ns) && NoBeginIn(steps, k.ns)
    requires forall i :: 0 <= i < |steps| ==> !steps[i].Environment?
    ensures k in Run(cfg, s, steps).w.objects <==> k in s.w.objects
    ensures k in s.w.objects ==> Run(cfg, s, steps).w.objects[k] == s.w.objects[k]
    decreases |steps|
  {
    if |steps| > 0 {
      StepElsewhere(cfg, s, steps[0], k);
      assert NoBeginIn(steps[1..], k.ns);
      UntouchedToTheStatus(cfg, Apply(cfg, s, steps[0]), steps[1..], k);
    }
  }
}

/** The anomaly stream of the Flink job: what a run that starts from the earliest record has emitted when it stops, and
    what any number of such runs have emitted together. */
module Stream {
  import opened Options
  import opened Risk

  function Filter<T>(s: seq<T>, p: T -> bool): seq<T> {
    if |s| == 0 then [] else Filter(s[..|s| - 1], p) + (if p(s[|s| - 1]) then [s[|s| - 1]] else [])
  }

  function Map<T, U>(s: seq<T>, f: T -> U): seq<U> {
    if |s| == 0 then [] else Map(s[..|s| - 1], f) + [f(s[|s| - 1])]
  }

  /** The stages in the order in which the job wires them. */
  function Anomalies(topic: seq<Bill>): seq<Bill> { Map(Filter(Filter(topic, IsValid), IsLate), Rated) }

  // ---------- the stages fuse and commute ----------

  predicate Keeps(b: Bill) { IsValid(b) && IsLate(b) }

  lemma {:induction false} FiltersFuse(s: seq<Bill>)
    ensures Filter(Filter(s, IsValid), IsLate) == Filter(s, Keeps) == Filter(Filter(s, IsLate), IsValid)
  {
    if |s| > 0 {
      var init, last := s[..|s| - 1], s[|s| - 1];
      FiltersFuse(init);
      FilterSnoc(Filter(init, IsValid), last, IsLate);
      FilterSnoc(Filter(init, IsLate), last, IsValid);
    }
  }

  lemma {:induction false} FilterSnoc(s: seq<Bill>, b: Bill, p: Bill -> bool)
    ensures Filter(s + [b], p) == Filter(s, p) + (if p(b) then [b] else [])
    ensures s + [] == s
  {
  }

  lemma {:induction false} RatingCommutes(s: seq<Bill>)
    ensures Map(Filter(s, Keeps), Rated) == Filter(Map(s, Rated), Keeps)
  {
    if |s| > 0 {
      var init, last := s[..|s| - 1], s[|s| - 1];
      RatingCommutes(init);
      FilterSnoc(Map(init, Rated), Rated(last), Keeps);
      assert Keeps(Rated(last)) == Keeps(last);
      MapSnoc(Filter(init, Keeps), last, Rated);
    }
  }

  lemma {:induction false} MapSnoc(s: seq<Bill>, b: Bill, f: Bill -> Bill)
    ensures Map(s + [b], f) == Map(s, f) + [f(b)]
    ensures s + [] == s
  {
  }

  /** The three stages can be put in any order, and come to one test and one map per record. */
  lemma {:induction false} StagesCommute(topic: seq<Bill>)
    ensures Anomalies(topic) == Map(Filter(topic, Keeps), Rated)
    ensures Anomalies(topic) == Map(Filter(Filter(topic, IsLate), IsValid), Rated)
    ensures Anomalies(topic) == Filter(Map(topic, Rated), Keeps)
  {
    FiltersFuse(topic);
    RatingCommutes(topic);
  }

  // ---------- one run ----------

  lemma OneRecord(topic: seq<Bill>, b: Bill)
    ensures Anomalies(topic + [b]) == Anomalies(topic) + (if Keeps(b) then [Rated(b)] else [])
  {
    FiltersFuse(topic);
    FiltersFuse(topic + [b]);
    FilterSnoc(topic, b, Keeps);
    MapSnoc(Filter(topic, Keeps), b, Rated);
    assert Anomalies(topic) + [] == Anomalies(topic);
  }

  /** One record more, in the record's own terms: it is emitted iff it is late and its amount is positive, behind
      everything before it, with the risk of its amount and its delay and otherwise as it came. */
  lemma EmittedNext(topic: seq<Bill>, b: Bill)
    ensures Anomalies([]) == []
    ensures Anomalies(topic + [b]) == Anomalies(topic)
            + (if b.payType == Some("Late") && (b.amount.PlusInfinity? || (b.amount.Finite? && b.amount.value > 0.0))
               then [b.(risk := Some(if b.amount.Finite? && b.amount.value <= 5000.0 then "Low"
                                     else if b.payDelay > 90 then "High" else "Medium"))]
               else [])
  {
    OneRecord(topic, b);
  }

  /** What is emitted, record by record: there are positions in the topic, in order, exactly those of the late records
      with a positive amount, and the record emitted for each is the one there with its risk filled in. */
  lemma EmittedInOrder(topic: seq<Bill>) returns (at: seq<nat>)
    ensures |at| == |Anomalies(topic)| && forall i, j :: 0 <= i < j < |at| ==> at[i] < at[j]
    ensures forall i :: 0 <= i < |at| ==> at[i] < |topic|
    ensures forall i :: 0 <= i < |at| ==>
              var r := topic[at[i]];
              Anomalies(topic)[i] == r.(risk := Some(if r.amount.Finite? && r.amount.value <= 5000.0 then "Low"
                                                     else if r.payDelay > 90 then "High" else "Medium"))
    ensures forall n :: 0 <= n < |topic| ==>
              (n in at <==> topic[n].payType == Some("Late")
                            && (topic[n].amount.PlusInfinity?
                                || (topic[n].amount.Finite? && topic[n].amount.value > 0.0)))
  {
    at := KeptInOrder(topic);
  }

  lemma {:induction false} KeptInOrder(topic: seq<Bill>) returns (at: seq<nat>)
    ensures |at| == |Anomalies(topic)| && forall i, j :: 0 <= i < j < |at| ==> at[i] < at[j]
    ensures forall i :: 0 <= i < |at| ==> at[i] < |topic| && Anomalies(topic)[i] == Rated(topic[at[i]])
    ensures forall n :: 0 <= n < |topic| ==> (n in at <==> Keeps(topic[n]))
  {
    at := [];
    if |topic| > 0 {
      var init, last := topic[..|topic| - 1], topic[|topic| - 1];
      at := KeptInOrder(init);
      OneRecord(init, last);
      assert topic == init + [last];
      if Keeps(last) { at := at + [|init|]; }
    }
  }

  /** What has been emitted never has to be taken back. */
  lemma {:induction false} AnomaliesGrow(topic: seq<Bill>, n: nat)
    requires n <= |topic|
    ensures Anomalies(topic[..n]) <= Anomalies(topic)
    decreases |topic| - n
  {
    if n < |topic| {
      AnomaliesGrow(topic, n + 1);
      assert topic[..n + 1] == topic[..n] + [topic[n]];
      OneRecord(topic[..n], topic[n]);
    } else {
      assert topic[..n] == topic;
    }
  }

  /** A run from the earliest record that stops after `stop` records, the risk being written into each invoice on its
      way: it has emitted a prefix of the image of the topic. */
  method RunJob(topic: seq<Bill>, stop: nat) returns (out: seq<Bill>)
    requires stop <= |topic|
    ensures out == Anomalies(topic[..stop]) && out <= Anomalies(topic)
  {
    out := [];
    for i := 0 to stop
      invariant out == Anomalies(topic[..i])
    {
      var inv := new Invoice(topic[i]);
      var valid := ValidFilter(inv);
      if valid {
        var late := LateFilter(inv);
        if late {
          RiskMap(inv);
          out := out + [inv.Contents()];
        }
      }
      assert topic[..i + 1] == topic[..i] + [topic[i]];
      OneRecord(topic[..i], topic[i]);
    }
    AnomaliesGrow(topic, stop);
  }

  // ---------- many runs over the same topic ----------

  predicate Within(topic: seq<Bill>, stops: seq<nat>) { forall i :: 0 <= i < |stops| ==> stops[i] <= |topic| }

  /** Everything that runs stopping after these numbers of records have emitted. */
  function AllOutputs(topic: seq<Bill>, stops: seq<nat>): multiset<Bill>
    requires Within(topic, stops)
  {
    if |stops| == 0 then multiset{} else
    AllOutputs(topic, stops[..|stops| - 1]) + multiset(Anomalies(topic[..stops[|stops| - 1]]))
  }

  /** One run emits every record at most as often as a full run, and a full run exactly as often. */
  lemma OneRun(topic: seq<Bill>, stop: nat, b: Bill)
    requires stop <= |topic|
    ensures multiset(Anomalies(topic[..stop]))[b] <= multiset(Anomalies(topic))[b]
    ensures stop == |topic| ==> Anomalies(topic[..stop]) == Anomalies(topic)
  {
    AnomaliesGrow(topic, stop);
    assert Anomalies(topic) == Anomalies(topic[..stop]) + Anomalies(topic)[|Anomalies(topic[..stop])|..];
    assert topic[..|topic|] == topic;
  }

  lemma {:induction false} RunsAtMost(topic: seq<Bill>, stops: seq<nat>, b: Bill, m: nat)
    requires Within(topic, stops) && m == multiset(Anomalies(topic))[b]
    ensures AllOutputs(topic, stops)[b] <= |stops| * m
  {
    if |stops| > 0 {
      var init, last := stops[..|stops| - 1], stops[|stops| - 1];
      RunsAtMost(topic, init, b, m);
      OneRun(topic, last, b);
      Sum(AllOutputs(topic, init), multiset(Anomalies(topic[..last])), b, |init|, m);
    }
  }

  lemma Sum(all: multiset<Bill>, one: multiset<Bill>, b: Bill, n: nat, m: nat)
    requires all[b] <= n * m && one[b] <= m
    ensures (all + one)[b] <= (n + 1) * m
  {
  }

  lemma {:induction false} RunsAtLeast(topic: seq<Bill>, stops: seq<nat>, b: Bill)
    requires Within(topic, stops) && |topic| in stops
    ensures multiset(Anomalies(topic))[b] <= AllOutputs(topic, stops)[b]
  {
    var init, last := stops[..|stops| - 1], stops[|stops| - 1];
    if last == |topic| {
      OneRun(topic, last, b);
    } else {
      assert stops == init + [last];
      RunsAtLeast(topic, init, b);
    }
  }

  /** Replay is safe. Over any runs from the earliest record on a fixed topic, one of which gets to the end, exactly the
      records of one full run come out, each at least as often as in a full run and at most once per run and occurrence
      there. */
  lemma {:induction false} ReplayIsSafe(topic: seq<Bill>, stops: seq<nat>, b: Bill)
    requires Within(topic, stops) && |topic| in stops
    ensures b in AllOutputs(topic, stops) <==> b in Anomalies(topic)
    ensures multiset(Anomalies(topic))[b] <= AllOutputs(topic, stops)[b] <= |stops| * multiset(Anomalies(topic))[b]
  {
    var m := multiset(Anomalies(topic))[b];
    RunsAtMost(topic, stops, b, m);
    RunsAtLeast(topic, stops, b);
    assert m == 0 ==> |stops| * m == 0;
    assert b in Anomalies(topic) <==> b in multiset(Anomalies(topic));
  }
}

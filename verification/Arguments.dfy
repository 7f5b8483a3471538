/** The arguments that the reconciler prints into the task, read back by the Flink job. What lies between is taken to
    cut the printed text at spaces and to read the pieces as `--key value` pairs. */
module Arguments {
  import opened Options
  import opened Store
  import opened Manifests

  const PREFIX := "?program-args="

  function Split(s: string): (words: seq<string>)
    ensures |words| > 0
  {
    if |s| == 0 then [""] else
    var rest := Split(s[1..]);
    if s[0] == ' ' then [""] + rest else [[s[0]] + rest[0]] + rest[1..]
  }

  function Join(words: seq<string>): string {
    if |words| == 0 then "" else if |words| == 1 then words[0] else words[0] + (" " + Join(words[1..]))
  }

  /** Pairs of `--key` and value; of two values for one key the later one counts. */
  function ReadPairs(words: seq<string>): Option<map<string, string>>
    decreases |words|
  {
    if |words| == 0 then Some(map[])
    else if |words| >= 2 && "--" <= words[0] then
      var rest :- ReadPairs(words[2..]);
      Some(map[words[0][2..] := words[1]] + rest)
    else None
  }

  // ---------- what the job makes of its parameters ----------

  datatype Job = Job(groupId: string, rawTopic: string, riskTopic: string, esRawIndex: string, esRiskIndex: string,
                     predictorUrl: Option<string>)

  /** Whether invoices are rated by the model; otherwise by amount and delay. */
  predicate UsesModel(job: Job) { job.predictorUrl.Some? && job.predictorUrl.value != "" }

  function OrDefault(parameters: map<string, string>, key: string, default: string): string {
    if key in parameters && parameters[key] != "" then parameters[key] else default
  }

  function JobOf(parameters: map<string, string>): Job {
    Job(OrDefault(parameters, "groupId", "iafdemo-flink"),
        OrDefault(parameters, "rawTopic", "iafdemo-raw"),
        OrDefault(parameters, "riskTopic", "iafdemo-anomaly"),
        OrDefault(parameters, "esRawIndex", "iafdemo-raw"),
        OrDefault(parameters, "esRiskIndex", "iafdemo-anomaly"),
        if "modelPredictorURL" in parameters then Some(parameters["modelPredictorURL"]) else None)
  }

  /** A parameter that is missing or empty is overwritten with its default. */
  method ReadParameter(parameters: map<string, string>, key: string, default: string) returns (value: string)
    ensures value == OrDefault(parameters, key, default)
  {
    value := if key in parameters then parameters[key] else "";
    if value == "" {
      value := default;
    }
  }

  /** `Processor.main`, as far as it reads its parameters and chooses the risk map. */
  method Configure(parameters: map<string, string>) returns (job: Job, useModel: bool)
    ensures job.groupId == if "groupId" in parameters && parameters["groupId"] != "" then parameters["groupId"]
                           else "iafdemo-flink"
    ensures job.rawTopic == if "rawTopic" in parameters && parameters["rawTopic"] != "" then parameters["rawTopic"]
                            else "iafdemo-raw"
    ensures job.riskTopic == if "riskTopic" in parameters && parameters["riskTopic"] != "" then parameters["riskTopic"]
                             else "iafdemo-anomaly"
    ensures job.esRawIndex == if "esRawIndex" in parameters && parameters["esRawIndex"] != ""
                              then parameters["esRawIndex"] else "iafdemo-raw"
    ensures job.esRiskIndex == if "esRiskIndex" in parameters && parameters["esRiskIndex"] != ""
                               then parameters["esRiskIndex"] else "iafdemo-anomaly"
    ensures useModel <==> "modelPredictorURL" in parameters && parameters["modelPredictorURL"] != ""
    ensures useModel ==> job.predictorUrl == Some(parameters["modelPredictorURL"])
    ensures job == JobOf(parameters) && (useModel <==> UsesModel(job))
  {
    var groupId := ReadParameter(parameters, "groupId", "iafdemo-flink");
    var rawTopic := ReadParameter(parameters, "rawTopic", "iafdemo-raw");
    var riskTopic := ReadParameter(parameters, "riskTopic", "iafdemo-anomaly");
    var predictorUrl := if "modelPredictorURL" in parameters then Some(parameters["modelPredictorURL"]) else None;
    var esRawIndex := ReadParameter(parameters, "esRawIndex", "iafdemo-raw");
    var esRiskIndex := ReadParameter(parameters, "esRiskIndex", "iafdemo-anomaly");
    useModel := !(predictorUrl == None || predictorUrl == Some(""));
    job := Job(groupId, rawTopic, riskTopic, esRawIndex, esRiskIndex, predictorUrl);
  }

  // ---------- splitting ----------

  predicate Spaceless(w: string) { ' ' !in w }

  lemma {:induction false} SplitWord(w: string, rest: string)
    requires Spaceless(w)
    ensures Split(w) == [w]
    ensures Split(w + (" " + rest)) == [w] + Split(rest)
  {
    if |w| == 0 {
      assert w + (" " + rest) == " " + rest;
      assert (" " + rest)[1..] == rest;
    } else {
      SplitWord(w[1..], rest);
      assert (w + (" " + rest))[1..] == w[1..] + (" " + rest);
      assert w == [w[0]] + w[1..];
    }
  }

  /** Joined words come apart again. */
  lemma {:induction false} SplitJoin(words: seq<string>)
    requires |words| > 0 && forall i :: 0 <= i < |words| ==> Spaceless(words[i])
    ensures Split(Join(words)) == words
  {
    if |words| == 1 {
      SplitWord(words[0], "");
    } else {
      SplitJoin(words[1..]);
      SplitWord(words[0], Join(words[1..]));
    }
  }

  /** No piece has a space in it. */
  lemma {:induction false} PiecesAreSpaceless(s: string, i: nat)
    requires i < |Split(s)|
    ensures Spaceless(Split(s)[i])
  {
    if |s| > 0 {
      var rest := Split(s[1..]);
      if s[0] == ' ' {
        if i > 0 { PiecesAreSpaceless(s[1..], i - 1); }
      } else {
        PiecesAreSpaceless(s[1..], i);
      }
    }
  }

  /** Every value that is read is one of the pieces. */
  lemma {:induction false} ValuesArePieces(words: seq<string>, key: string)
    requires ReadPairs(words).Some? && key in ReadPairs(words).value
    ensures ReadPairs(words).value[key] in words
    decreases |words|
  {
    var rest := ReadPairs(words[2..]).value;
    if key in rest {
      ValuesArePieces(words[2..], key);
    } else {
      assert words[1] in words;
    }
  }

  // ---------- the round trip ----------

  function UrlWords(url: string): seq<string> { if url == "" then [] else ["--modelPredictorURL", url] }

  function Words(url: string): seq<string> {
    ["--groupId", GROUP] + (["--rawTopic", TopicName(Raw)] + (["--riskTopic", TopicName(Risk)]
    + (["--esRawIndex", TopicName(Raw)] + (["--esRiskIndex", TopicName(Risk)] + UrlWords(url)))))
  }

  /** What arrives at the job when the task carries this argument. */
  function Received(args: string): Option<Job> {
    if PREFIX <= args then
      var parameters :- ReadPairs(Split(args[|PREFIX|..]));
      Some(JobOf(parameters))
    else None
  }

  /** The text of further words behind a value. */
  function Tail(words: seq<string>): string { if |words| == 0 then "" else " " + Join(words) }

  lemma {:induction false} JoinPair(flag: string, value: string, rest: seq<string>)
    ensures Join([flag, value] + rest) == (flag + " ") + (value + Tail(rest))
    ensures Tail([flag, value] + rest) == ((" " + flag) + " ") + (value + Tail(rest))
  {
  }

  lemma {:induction false} JoinPairs(f0: string, v0: string, f1: string, v1: string, f2: string, v2: string,
      f3: string, v3: string,
                  f4: string, v4: string, rest: seq<string>)
    ensures Join([f0, v0] + ([f1, v1] + ([f2, v2] + ([f3, v3] + ([f4, v4] + rest)))))
            == (f0 + " ") + (v0 + (((" " + f1) + " ") + (v1 + (((" " + f2) + " ") + (v2 + (((" " + f3) + " ") + (v3
               + (((" " + f4) + " ") + (v4 + Tail(rest))))))))))
  {
    JoinPair(f4, v4, rest);
    JoinPair(f3, v3, [f4, v4] + rest);
    JoinPair(f2, v2, [f3, v3] + ([f4, v4] + rest));
    JoinPair(f1, v1, [f2, v2] + ([f3, v3] + ([f4, v4] + rest)));
    JoinPair(f0, v0, [f1, v1] + ([f2, v2] + ([f3, v3] + ([f4, v4] + rest))));
  }

  lemma RegroupAll(a: string, b: string, c: string, d: string, e: string, f: string, g: string, h: string, i: string,
                   j: string, tail: string)
    ensures (((((((((a + b) + c) + d) + e) + f) + g) + h) + i) + j) + tail
            == a + (b + (c + (d + (e + (f + (g + (h + (i + (j + tail)))))))))
  {
  }

  lemma Literals()
    ensures PREFIX + ("--groupId" + " ") == "?program-args=--groupId "
    ensures (" " + "--rawTopic") + " " == " --rawTopic " && (" " + "--riskTopic") + " " == " --riskTopic "
    ensures (" " + "--esRawIndex") + " " == " --esRawIndex " && (" " + "--esRiskIndex") + " " == " --esRiskIndex "
    ensures (" " + "--modelPredictorURL") + " " == " --modelPredictorURL "
  {
  }

  lemma LastPair(front: string, flag: string, value: string)
    ensures front + Tail([flag, value]) == (front + ((" " + flag) + " ")) + value
  {
    JoinPair(flag, value, []);
    assert [flag, value] + [] == [flag, value] && value + "" == value;
  }

  lemma TailOfUrl(url: string)
    ensures ProgramArgs(url) == BaseArgs() + Tail(UrlWords(url))
  {
    if url == "" {
      assert BaseArgs() + "" == BaseArgs();
    } else {
      Literals();
      LastPair(BaseArgs(), "--modelPredictorURL", url);
    }
  }

  /** The printed arguments are the prefix and the words with single spaces between them. */
  lemma PrintedAsWords(url: string)
    ensures ProgramArgs(url) == "?program-args=" + Join(Words(url))
  {
    var raw, risk, tail := TopicName(Raw), TopicName(Risk), Tail(UrlWords(url));
    TailOfUrl(url);
    Literals();
    RegroupAll("?program-args=--groupId ", GROUP, " --rawTopic ", raw, " --riskTopic ", risk, " --esRawIndex ", raw,
               " --esRiskIndex ", risk, tail);
    JoinPairs("--groupId", GROUP, "--rawTopic", raw, "--riskTopic", risk, "--esRawIndex", raw, "--esRiskIndex", risk,
              UrlWords(url));
    var rest := raw + (" --esRiskIndex " + (risk + tail));
    Front("--groupId", GROUP + (" --rawTopic " + (raw + (" --riskTopic " + (risk + (" --esRawIndex " + rest))))));
  }

  lemma Front(flag: string, rest: string)
    ensures PREFIX + ((flag + " ") + rest) == (PREFIX + (flag + " ")) + rest
  {
  }

  /** What the reconciler means the job to be. */
  function Meant(url: string): Job {
    Job(GROUP, TopicName(Raw), TopicName(Risk), TopicName(Raw), TopicName(Risk), if url == "" then None else Some(url))
  }

  lemma {:induction false} PairIsRead(key: string, value: string, rest: seq<string>, read: map<string, string>)
    requires ReadPairs(rest) == Some(read)
    ensures ReadPairs(["--" + key, value] + rest) == Some(map[key := value] + read)
  {
  }

  lemma {:induction false} PairsAreRead(k0: string, v0: string, k1: string, v1: string, k2: string, v2: string,
      k3: string, v3: string,
                     k4: string, v4: string, rest: seq<string>, read: map<string, string>)
    requires ReadPairs(rest) == Some(read)
    ensures ReadPairs(["--" + k0, v0]
            + (["--" + k1, v1] + (["--" + k2, v2] + (["--" + k3, v3] + (["--" + k4, v4] + rest)))))
            == Some(map[k0 := v0] + (map[k1 := v1] + (map[k2 := v2] + (map[k3 := v3] + (map[k4 := v4] + read)))))
  {
    var r4, m4 := ["--" + k4, v4] + rest, map[k4 := v4] + read;
    PairIsRead(k4, v4, rest, read);
    var r3, m3 := ["--" + k3, v3] + r4, map[k3 := v3] + m4;
    PairIsRead(k3, v3, r4, m4);
    var r2, m2 := ["--" + k2, v2] + r3, map[k2 := v2] + m3;
    PairIsRead(k2, v2, r3, m3);
    var r1, m1 := ["--" + k1, v1] + r2, map[k1 := v1] + m2;
    PairIsRead(k1, v1, r2, m2);
    PairIsRead(k0, v0, r1, m1);
  }

  function UrlPair(url: string): map<string, string> { if url == "" then map[] else map["modelPredictorURL" := url] }

  lemma UrlIsRead(url: string)
    ensures ReadPairs(UrlWords(url)) == Some(UrlPair(url))
  {
    if url != "" {
      PairIsRead("modelPredictorURL", url, [], map[]);
      assert "--" + "modelPredictorURL" == "--modelPredictorURL";
      assert ["--modelPredictorURL", url] + [] == ["--modelPredictorURL", url];
      assert map["modelPredictorURL" := url] + map[] == map["modelPredictorURL" := url];
    }
  }

  lemma Flags()
    ensures "--" + "groupId" == "--groupId" && "--" + "rawTopic" == "--rawTopic" && "--" + "riskTopic" == "--riskTopic"
    ensures "--" + "esRawIndex" == "--esRawIndex" && "--" + "esRiskIndex" == "--esRiskIndex"
  {
  }

  function Parameters(url: string): map<string, string> {
    map["groupId" := GROUP] + (map["rawTopic" := TopicName(Raw)] + (map["riskTopic" := TopicName(Risk)]
    + (map["esRawIndex" := TopicName(Raw)] + (map["esRiskIndex" := TopicName(Risk)] + UrlPair(url)))))
  }

  lemma WordsAreRead(url: string)
    ensures ReadPairs(Words(url)) == Some(Parameters(url))
  {
    UrlIsRead(url);
    Flags();
    PairsAreRead("groupId", GROUP, "rawTopic", TopicName(Raw), "riskTopic", TopicName(Risk), "esRawIndex",
                 TopicName(Raw), "esRiskIndex", TopicName(Risk), UrlWords(url), UrlPair(url));
  }

  /** The six keys all have different lengths. */
  lemma ParametersAreMeant(url: string)
    ensures JobOf(Parameters(url)) == Meant(url)
  {
  }

  lemma WordsAreSpaceless(url: string)
    requires Spaceless(url)
    ensures forall i :: 0 <= i < |Words(url)| ==> Spaceless(Words(url)[i])
  {
  }

  /** The round trip. What is printed reads back as what was meant exactly when the predictor URL has no space in it;
      and then the invoices are rated by the model iff there is a URL. */
  lemma ReadsBack(url: string)
    ensures Received(ProgramArgs(url))
            == Some(Job("iafdemo-flink-processor", "iafdemo-raw", "iafdemo-anomaly", "iafdemo-raw", "iafdemo-anomaly",
                        if url == "" then None else Some(url)))
            <==> ' ' !in url
    ensures ' ' !in url ==> (UsesModel(Received(ProgramArgs(url)).value) <==> url != "")
  {
    var args := ProgramArgs(url);
    PrintedAsWords(url);
    assert args[|PREFIX|..] == Join(Words(url));
    if Spaceless(url) {
      WordsAreSpaceless(url);
      SplitJoin(Words(url));
      WordsAreRead(url);
      ParametersAreMeant(url);
    } else if Received(args) == Some(Meant(url)) {
      var words := Split(args[|PREFIX|..]);
      ValuesArePieces(words, "modelPredictorURL");
      var i :| 0 <= i < |words| && words[i] == url;
      PiecesAreSpaceless(args[|PREFIX|..], i);
    }
  }
}

/** The three searches through the endpoint lists in the status of the CartridgeRequirements, and the small
    decisions the reconciler takes on what it reads. */
module Endpoints {
  import opened Options
  import opened Store

  // ---------- string helpers ----------

  function Lower(c: char): char { if 'A' <= c <= 'Z' then (c as int + 32) as char else c }

  /** `strings.EqualFold` against a constant whose letters have no case variants outside ASCII. */
  predicate EqualFold(a: string, b: string) {
    |a| == |b| && forall i :: 0 <= i < |a| ==> Lower(a[i]) == Lower(b[i])
  }

  /** Two strings fold together iff they have the same length and differ in the case of ASCII letters only. */
  lemma FoldsByCase(a: string, b: string)
    ensures EqualFold(a, b) <==>
              |a| == |b| && forall i :: 0 <= i < |a| ==>
                || a[i] == b[i]
                || ('A' <= a[i] <= 'Z' && b[i] as int == a[i] as int + 32)
                || ('A' <= b[i] <= 'Z' && a[i] as int == b[i] as int + 32)
  {
    forall i | 0 <= i < |a| && |a| == |b|
      ensures Lower(a[i]) == Lower(b[i]) <==> || a[i] == b[i]
                                              || ('A' <= a[i] <= 'Z' && b[i] as int == a[i] as int + 32)
                                              || ('A' <= b[i] <= 'Z' && a[i] as int == b[i] as int + 32)
    {
      CaseOf(a[i], b[i]);
    }
  }

  lemma CaseOf(c: char, d: char)
    ensures Lower(c) == Lower(d) <==> || c == d
                                      || ('A' <= c <= 'Z' && d as int == c as int + 32)
                                      || ('A' <= d <= 'Z' && c as int == d as int + 32)
  {
  }

  /** `strings.TrimSuffix(s, "\n")`: at most one newline goes. */
  function TrimNewline(s: string): string {
    if |s| > 0 && s[|s| - 1] == '\n' then s[..|s| - 1] else s
  }

  // ---------- Elasticsearch: the loop keeps going, so the last internal endpoint wins ----------

  datatype EsConn = EsConn(endpoint: string, authSecret: string, certSecret: string)

  function SecretOf(e: EsEndpoint): Option<string> {
    if e.authentication.Some? && e.authentication.value.secret.Some?
    then Some(e.authentication.value.secret.value.secretName) else None
  }

  function CertOf(e: EsEndpoint): Option<string> {
    if e.caSecret.Some? then Some(e.caSecret.value.secretName) else None
  }

  function Override(before: string, found: Option<string>): string { if found.Some? then found.value else before }

  function ScanEs(eps: seq<EsEndpoint>): EsConn {
    if |eps| == 0 then EsConn("", "", "") else
    var c, e := ScanEs(eps[..|eps| - 1]), eps[|eps| - 1];
    if e.scope.Internal?
    then EsConn(e.uri, Override(c.authSecret, SecretOf(e)), Override(c.certSecret, CertOf(e)))
    else c
  }

  /** `i` is the last position with property `p`. */
  ghost predicate IsLast<T>(s: seq<T>, p: T -> bool, i: nat) {
    i < |s| && p(s[i]) && forall j :: i < j < |s| ==> !p(s[j])
  }

  predicate IsInternal(e: EsEndpoint) { e.scope.Internal? }
  predicate HasSecret(e: EsEndpoint) { e.scope.Internal? && SecretOf(e).Some? }
  predicate HasCert(e: EsEndpoint) { e.scope.Internal? && CertOf(e).Some? }

  /** Address, login secret and certificate secret each come from the last internal endpoint that has one, so with
      several internal endpoints they may come from different ones. */
  lemma {:induction false} ScanEsIsLast(eps: seq<EsEndpoint>, i: nat)
    ensures i < |eps| && eps[i].scope.Internal? && (forall j :: i < j < |eps| ==> !eps[j].scope.Internal?) ==>
              ScanEs(eps).endpoint == eps[i].uri
    ensures i < |eps| && eps[i].scope.Internal? && eps[i].authentication.Some?
            && eps[i].authentication.value.secret.Some?
            && (forall j :: i < j < |eps| && eps[j].scope.Internal? ==>
                 eps[j].authentication.None? || eps[j].authentication.value.secret.None?) ==>
              ScanEs(eps).authSecret == eps[i].authentication.value.secret.value.secretName
    ensures i < |eps| && eps[i].scope.Internal? && eps[i].caSecret.Some?
            && (forall j :: i < j < |eps| && eps[j].scope.Internal? ==> eps[j].caSecret.None?) ==>
              ScanEs(eps).certSecret == eps[i].caSecret.value.secretName
    ensures (forall e :: e in eps ==> !e.scope.Internal?) ==> ScanEs(eps) == EsConn("", "", "")
    ensures (forall e :: e in eps && e.scope.Internal? ==> e.caSecret.None?) ==> ScanEs(eps).certSecret == ""
  {
    ScanEsLast(eps, i);
    if forall e :: e in eps && e.scope.Internal? ==> e.caSecret.None? { NoCert(eps); }
  }

  lemma {:induction false} NoCert(eps: seq<EsEndpoint>)
    requires forall e :: e in eps && e.scope.Internal? ==> e.caSecret.None?
    ensures ScanEs(eps).certSecret == ""
  {
    if |eps| > 0 {
      var init := eps[..|eps| - 1];
      assert eps == init + [eps[|eps| - 1]];
      NoCert(init);
    }
  }

  lemma {:induction false} ScanEsLast(eps: seq<EsEndpoint>, i: nat)
    ensures IsLast(eps, IsInternal, i) ==> ScanEs(eps).endpoint == eps[i].uri
    ensures IsLast(eps, HasSecret, i) ==> Some(ScanEs(eps).authSecret) == SecretOf(eps[i])
    ensures IsLast(eps, HasCert, i) ==> Some(ScanEs(eps).certSecret) == CertOf(eps[i])
    ensures (forall e :: e in eps ==> !IsInternal(e)) ==> ScanEs(eps) == EsConn("", "", "")
  {
    if |eps| > 0 {
      var init := eps[..|eps| - 1];
      assert eps == init + [eps[|eps| - 1]];
      assert eps[|eps| - 1] in eps;
      ScanEsLast(init, i);
      assert forall p: EsEndpoint -> bool ::
          i < |init| && IsLast(eps, p, i) ==> IsLast(init, p, i) && !p(eps[|eps| - 1]);
    }
  }

  method FindElasticsearch(eps: seq<EsEndpoint>) returns (endpoint: string, authSecret: string, certSecret: string)
    ensures EsConn(endpoint, authSecret, certSecret) == ScanEs(eps)
  {
    endpoint, authSecret, certSecret := "", "", "";
    for i := 0 to |eps|
      invariant EsConn(endpoint, authSecret, certSecret) == ScanEs(eps[..i])
    {
      assert eps[..i + 1][..i] == eps[..i];
      if eps[i].scope.Internal? {
        endpoint := eps[i].uri;
        if eps[i].authentication.Some? && eps[i].authentication.value.secret.Some? {
          authSecret := eps[i].authentication.value.secret.value.secretName;
        }
        if eps[i].caSecret.Some? {
          certSecret := eps[i].caSecret.value.secretName;
        }
      }
    }
    assert eps[..|eps|] == eps;
  }

  // ---------- Kafka: Knative takes the last plain listener, the microservices the first TLS one ----------

  const PLAIN := "internal-service-plain"
  const TLS := "internal-service-tls"

  predicate IsPlain(e: KafkaEndpoint) { e.name == PLAIN }
  predicate IsTls(e: KafkaEndpoint) { e.name == TLS }

  function LastPlain(eps: seq<KafkaEndpoint>): string {
    if |eps| == 0 then "" else
    var e := eps[|eps| - 1];
    if IsPlain(e) then e.bootstrapServers else LastPlain(eps[..|eps| - 1])
  }

  function FirstTls(eps: seq<KafkaEndpoint>): Option<KafkaEndpoint> {
    if |eps| == 0 then None else if IsTls(eps[0]) then Some(eps[0]) else FirstTls(eps[1..])
  }

  /** The address of the last plain listener, if there is one. */
  lemma {:induction false} LastPlainIsLast(eps: seq<KafkaEndpoint>, i: nat)
    ensures i < |eps| && eps[i].name == "internal-service-plain"
            && (forall j :: i < j < |eps| ==> eps[j].name != "internal-service-plain") ==>
              LastPlain(eps) == eps[i].bootstrapServers
    ensures (forall e :: e in eps ==> e.name != "internal-service-plain") ==> LastPlain(eps) == ""
  {
    LastPlainLast(eps, i);
  }

  lemma {:induction false} LastPlainLast(eps: seq<KafkaEndpoint>, i: nat)
    ensures IsLast(eps, IsPlain, i) ==> LastPlain(eps) == eps[i].bootstrapServers
    ensures (forall e :: e in eps ==> !IsPlain(e)) ==> LastPlain(eps) == ""
  {
    if |eps| > 0 && !IsPlain(eps[|eps| - 1]) {
      var init := eps[..|eps| - 1];
      assert eps == init + [eps[|eps| - 1]];
      LastPlainLast(init, i);
      assert i < |init| && IsLast(eps, IsPlain, i) ==> IsLast(init, IsPlain, i);
    }
  }

  /** The first TLS listener; none is found iff there is none. */
  lemma {:induction false} FirstTlsIsFirst(eps: seq<KafkaEndpoint>)
    ensures FirstTls(eps).None? <==> forall e :: e in eps ==> e.name != "internal-service-tls"
    ensures FirstTls(eps).Some? ==>
              exists i :: 0 <= i < |eps| && eps[i] == FirstTls(eps).value && eps[i].name == "internal-service-tls"
                          && forall j :: 0 <= j < i ==> eps[j].name != "internal-service-tls"
  {
    FirstTlsFirst(eps);
    if FirstTls(eps).Some? {
      var i :| 0 <= i < |eps| && eps[i] == FirstTls(eps).value && IsTls(eps[i])
               && forall j :: 0 <= j < i ==> !IsTls(eps[j]);
      assert eps[i].name == "internal-service-tls" && forall j :: 0 <= j < i ==> !IsTls(eps[j]);
    }
  }

  lemma {:induction false} FirstTlsFirst(eps: seq<KafkaEndpoint>)
    ensures FirstTls(eps).None? <==> forall e :: e in eps ==> !IsTls(e)
    ensures FirstTls(eps).Some? ==> exists i :: 0 <= i < |eps| && eps[i] == FirstTls(eps).value && IsTls(eps[i])
                                                && forall j :: 0 <= j < i ==> !IsTls(eps[j])
  {
    if |eps| > 0 && !IsTls(eps[0]) {
      FirstTlsFirst(eps[1..]);
      assert eps == [eps[0]] + eps[1..];
      if FirstTls(eps[1..]).Some? {
        var i :| 0 <= i < |eps[1..]| && eps[1..][i] == FirstTls(eps).value && IsTls(eps[1..][i])
                 && forall j :: 0 <= j < i ==> !IsTls(eps[1..][j]);
        assert eps[i + 1] == FirstTls(eps).value;
        assert forall j :: 0 < j < i + 1 ==> eps[j] == eps[1..][j - 1];
      }
    }
  }

  method FindPlain(eps: seq<KafkaEndpoint>) returns (bootstrapServers: string)
    ensures bootstrapServers == LastPlain(eps)
  {
    bootstrapServers := "";
    for i := 0 to |eps|
      invariant bootstrapServers == LastPlain(eps[..i])
    {
      assert eps[..i + 1][..i] == eps[..i];
      if eps[i].name == PLAIN {
        bootstrapServers := eps[i].bootstrapServers;
      }
    }
    assert eps[..|eps|] == eps;
  }

  /** The CA secret and the login secret of a Kafka endpoint are read without a nil check. */
  predicate Dereferenceable(e: KafkaEndpoint) {
    e.caSecret.Some? && e.authentication.Some? && e.authentication.value.secret.Some?
  }

  // ---------- decisions on statuses ----------

  predicate IsReady(st: Status) { st.ready.Some? && st.ready.value.status.ConditionTrue? }

  datatype Verdict = Retry | Clean | Broken

  /** What `deployModelOnKubeflow` makes of an existing AIDeployment. */
  function DeploymentVerdict(st: Status): Verdict {
    if st.ready.None? then Retry
    else if st.ready.value.status.ConditionUnknown? || EqualFold(st.ready.value.reason, "Pending") then Retry
    else if st.ready.value.status.ConditionTrue? && |st.endpoint| > 0 then Clean
    else Broken
  }

  /** What `getPredictorURL` makes of an AIDeployment; every error is the empty string to its only caller. */
  function PredictorUrl(st: Status): string { if IsReady(st) then st.endpoint else "" }

  /** A clean verdict promises a predictor URL. */
  lemma CleanMeansUrl(st: Status)
    ensures DeploymentVerdict(st).Clean? ==> |PredictorUrl(st)| > 0
  {
  }

  /** The converse fails exactly when the ready condition still carries the reason Pending. */
  lemma UrlWithoutClean(st: Status)
    requires |PredictorUrl(st)| > 0
    ensures DeploymentVerdict(st).Clean? <==> !EqualFold(st.ready.value.reason, "Pending")
    ensures DeploymentVerdict(st).Clean? || DeploymentVerdict(st).Retry?
  {
  }

  // ---------- the answer of Elasticsearch to PUT index ----------

  /** `errorType` is None when the body is not the expected JSON. */
  datatype Http = Http(code: int, errorType: Option<string>)

  const ALREADY_EXISTS := "resource_already_exists_exception"

  predicate Accepted(h: Http) { h.code == 200 || h.errorType == Some(ALREADY_EXISTS) }
}

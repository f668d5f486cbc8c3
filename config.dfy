/** The configuration record of the AWS provider and its mandatory-field
    validation (cmd/sync/config.go). */
module Config {
  import opened Wrappers

  /** One upstream declaration of the config file. */
  datatype AwsUpstream = AwsUpstream(
    name: string,
    autoscalingGroup: string,
    port: int,
    kind: string)

  /** The parsed config file. `syncIntervalInSeconds` is a Go `time.Duration`;
      only its comparison with zero matters to validation. */
  datatype AwsConfig = AwsConfig(
    region: string,
    apiEndpoint: string,
    syncIntervalInSeconds: int,
    upstreams: seq<AwsUpstream>)

  /** The error `validateAWSConfig` returns, one constructor per message. */
  datatype ConfigError =
    | MissingRegion
    | MissingApiEndpoint
    | ZeroSyncInterval
    | NoUpstreams
    | MissingUpstreamName
    | MissingAutoscalingGroup(upstream: string)
    | ZeroPort(upstream: string)
    | InvalidKind(upstream: string)
  {
    /** Errors that are about one upstream rather than the whole file. */
    predicate IsUpstreamError() {
      MissingUpstreamName? || MissingAutoscalingGroup? || ZeroPort? || InvalidKind?
    }
  }

  /** The four checks on one upstream, first failure wins. */
  function CheckUpstream(u: AwsUpstream): (r: Option<ConfigError>)
    ensures r.None? ==> UpstreamOk(u)
    ensures r.Some? ==> r.value.IsUpstreamError()
  {
    if u.name == "" then Some(MissingUpstreamName)
    else if u.autoscalingGroup == "" then Some(MissingAutoscalingGroup(u.name))
    else if u.port == 0 then Some(ZeroPort(u.name))
    else if u.kind == "" || !(u.kind == "http" || u.kind == "stream") then Some(InvalidKind(u.name))
    else None
  }

  /** The `for` loop over the upstreams: the error of the first upstream, in
      list order, that fails a check. */
  function ValidateUpstreams(ups: seq<AwsUpstream>): (r: Option<ConfigError>)
    ensures r.Some? ==> r.value.IsUpstreamError()
  {
    if ups == [] then None
    else if CheckUpstream(ups[0]).Some? then CheckUpstream(ups[0])
    else ValidateUpstreams(ups[1..])
  }

  /** validateAWSConfig: `None` stands for a nil error. */
  function ValidateAWSConfig(cfg: AwsConfig): (r: Option<ConfigError>)
    ensures r.None? ==>
              cfg.region != "" && cfg.apiEndpoint != "" && cfg.syncIntervalInSeconds != 0 && |cfg.upstreams| > 0
  {
    if cfg.region == "" then Some(MissingRegion)
    else if cfg.apiEndpoint == "" then Some(MissingApiEndpoint)
    else if cfg.syncIntervalInSeconds == 0 then Some(ZeroSyncInterval)
    else if |cfg.upstreams| == 0 then Some(NoUpstreams)
    else ValidateUpstreams(cfg.upstreams)
  }

  // ---------------------------------------------------------------------------
  // An independent description of a valid config, and the lemmas that tie the
  // validator to it.

  predicate IsValidKind(kind: string) {
    kind == "http" || kind == "stream"
  }

  predicate UpstreamOk(u: AwsUpstream) {
    u.name != "" && u.autoscalingGroup != "" && u.port != 0 && IsValidKind(u.kind)
  }

  predicate ConfigOk(cfg: AwsConfig) {
    && cfg.region != ""
    && cfg.apiEndpoint != ""
    && cfg.syncIntervalInSeconds != 0
    && |cfg.upstreams| > 0
    && forall i :: 0 <= i < |cfg.upstreams| ==> UpstreamOk(cfg.upstreams[i])
  }

  /** An upstream passes its checks exactly when all four fields are acceptable;
      when it fails, the error names a per-upstream field. */
  lemma CheckUpstreamPassesIff(u: AwsUpstream)
    ensures CheckUpstream(u).None? <==> UpstreamOk(u)
    ensures CheckUpstream(u).Some? ==> CheckUpstream(u).value.IsUpstreamError()
  {
  }

  /** The checks on one upstream run in the order name, autoscaling_group,
      port, kind. */
  lemma CheckUpstreamPrecedence(u: AwsUpstream)
    ensures u.name == "" ==> CheckUpstream(u) == Some(MissingUpstreamName)
    ensures u.name != "" && u.autoscalingGroup == "" ==>
              CheckUpstream(u) == Some(MissingAutoscalingGroup(u.name))
    ensures u.name != "" && u.autoscalingGroup != "" && u.port == 0 ==>
              CheckUpstream(u) == Some(ZeroPort(u.name))
    ensures u.name != "" && u.autoscalingGroup != "" && u.port != 0 ==>
              (CheckUpstream(u) == Some(InvalidKind(u.name)) <==> !IsValidKind(u.kind))
  {
  }

  /** The kinds the message for a rejected kind names (cmd/sync/config.go:27):
      "http or tcp". */
  const KindMessageKinds: seq<string> := ["http", "tcp"]

  /** As written, the message names a kind the check rejects: an upstream
      that follows its advice and says "tcp" is refused again. */
  lemma KindMessageNamesRejectedKind(u: AwsUpstream)
    requires u.name != "" && u.autoscalingGroup != "" && u.port != 0
    ensures exists k :: k in KindMessageKinds && CheckUpstream(u.(kind := k)) == Some(InvalidKind(u.name))
  {
    assert "tcp" in KindMessageKinds && CheckUpstream(u.(kind := "tcp")) == Some(InvalidKind(u.name));
  }

  /** The kinds the message evidently means to name: the ones the check accepts. */
  const KindMessageKindsCorrected: seq<string> := ["http", "stream"]

  /** The corrected message names exactly the kinds that pass the check. */
  lemma KindMessageCorrectedMatchesCheck(u: AwsUpstream, k: string)
    requires u.name != "" && u.autoscalingGroup != "" && u.port != 0
    ensures k in KindMessageKindsCorrected <==> CheckUpstream(u.(kind := k)).None?
  {
  }

  /** Only the strings "http" and "stream" are accepted as kinds. */
  lemma KindAcceptedIff(u: AwsUpstream)
    requires u.name != "" && u.autoscalingGroup != "" && u.port != 0
    ensures CheckUpstream(u).None? <==> (u.kind == "http" || u.kind == "stream")
    ensures CheckUpstream(u.(kind := "")) == Some(InvalidKind(u.name))
    ensures CheckUpstream(u.(kind := "tcp")) == Some(InvalidKind(u.name))
  {
  }

  /** The upstream loop returns nil exactly when every upstream passes. */
  lemma {:induction false} ValidateUpstreamsNoneIff(ups: seq<AwsUpstream>)
    ensures ValidateUpstreams(ups).None? <==>
              forall i :: 0 <= i < |ups| ==> CheckUpstream(ups[i]).None?
  {
    if ups != [] {
      ValidateUpstreamsNoneIff(ups[1..]);
      assert forall i :: 1 <= i < |ups| ==> ups[i] == ups[1..][i - 1];
    }
  }

  /** The error of the upstream loop is that of the first failing upstream in
      list order, whatever the upstreams after it hold. */
  lemma {:induction false} ValidateUpstreamsReportsFirst(ups: seq<AwsUpstream>, i: nat)
    requires i < |ups|
    requires forall j :: 0 <= j < i ==> CheckUpstream(ups[j]).None?
    requires CheckUpstream(ups[i]).Some?
    ensures ValidateUpstreams(ups) == CheckUpstream(ups[i])
  {
    if i > 0 {
      assert CheckUpstream(ups[0]).None?;
      assert forall j :: 0 <= j < i - 1 ==> ups[1..][j] == ups[j + 1];
      ValidateUpstreamsReportsFirst(ups[1..], i - 1);
    }
  }

  /** Conversely, any error of the upstream loop comes from some upstream all of
      whose predecessors passed. */
  lemma {:induction false} ValidateUpstreamsErrorHasWitness(ups: seq<AwsUpstream>)
    requires ValidateUpstreams(ups).Some?
    ensures exists i :: 0 <= i < |ups| && CheckUpstream(ups[i]) == ValidateUpstreams(ups) &&
              forall j :: 0 <= j < i ==> CheckUpstream(ups[j]).None?
  {
    if CheckUpstream(ups[0]).Some? {
      assert CheckUpstream(ups[0]) == ValidateUpstreams(ups);
    } else {
      ValidateUpstreamsErrorHasWitness(ups[1..]);
      var k :| 0 <= k < |ups[1..]| && CheckUpstream(ups[1..][k]) == ValidateUpstreams(ups[1..]) &&
               forall j :: 0 <= j < k ==> CheckUpstream(ups[1..][j]).None?;
      assert CheckUpstream(ups[k + 1]) == ValidateUpstreams(ups);
      assert forall j :: 1 <= j < k + 1 ==> ups[j] == ups[1..][j - 1];
    }
  }

  /** Validation returns nil exactly for the configs described by ConfigOk. */
  lemma ValidateIff(cfg: AwsConfig)
    ensures ValidateAWSConfig(cfg).None? <==> ConfigOk(cfg)
  {
    ValidateUpstreamsNoneIff(cfg.upstreams);
    forall i | 0 <= i < |cfg.upstreams| {
      CheckUpstreamPassesIff(cfg.upstreams[i]);
    }
  }

  /** The order of precedence of the top-level checks: each field is examined
      only once the ones before it have passed. */
  lemma TopLevelPrecedence(cfg: AwsConfig)
    ensures cfg.region == "" ==> ValidateAWSConfig(cfg) == Some(MissingRegion)
    ensures cfg.region != "" && cfg.apiEndpoint == "" ==>
              ValidateAWSConfig(cfg) == Some(MissingApiEndpoint)
    ensures cfg.region != "" && cfg.apiEndpoint != "" && cfg.syncIntervalInSeconds == 0 ==>
              ValidateAWSConfig(cfg) == Some(ZeroSyncInterval)
    ensures (cfg.region != "" && cfg.apiEndpoint != "" && cfg.syncIntervalInSeconds != 0 &&
             cfg.upstreams == []) ==> ValidateAWSConfig(cfg) == Some(NoUpstreams)
  {
  }

  /** An error about an upstream is only ever reported once the three
      top-level fields have passed and the list is non-empty, and it is the
      error of the first failing upstream. */
  lemma UpstreamErrorsComeLast(cfg: AwsConfig)
    requires ValidateAWSConfig(cfg).Some? && ValidateAWSConfig(cfg).value.IsUpstreamError()
    ensures cfg.region != "" && cfg.apiEndpoint != "" && cfg.syncIntervalInSeconds != 0
    ensures |cfg.upstreams| > 0
    ensures exists i :: 0 <= i < |cfg.upstreams| &&
              CheckUpstream(cfg.upstreams[i]) == ValidateAWSConfig(cfg) &&
              forall j :: 0 <= j < i ==> CheckUpstream(cfg.upstreams[j]).None?
  {
    ValidateUpstreamsErrorHasWitness(cfg.upstreams);
  }

  /** A zero sync interval is the only rejected value: any two non-zero
      intervals, negative ones included, give the same verdict. */
  lemma IntervalOnlyZeroRejected(cfg: AwsConfig, d: int)
    requires cfg.syncIntervalInSeconds != 0 && d != 0
    ensures ValidateAWSConfig(cfg.(syncIntervalInSeconds := d)) == ValidateAWSConfig(cfg)
  {
  }

  /** Likewise for the port of an upstream: replacing one non-zero port by
      another non-zero value does not change the verdict. */
  lemma PortOnlyZeroRejected(cfg: AwsConfig, i: nat, p: int)
    requires i < |cfg.upstreams| && cfg.upstreams[i].port != 0 && p != 0
    ensures ValidateAWSConfig(cfg.(upstreams := cfg.upstreams[i := cfg.upstreams[i].(port := p)]))
            == ValidateAWSConfig(cfg)
  {
    var ups := cfg.upstreams;
    var ups' := ups[i := ups[i].(port := p)];
    assert forall j :: 0 <= j < |ups| ==> CheckUpstream(ups'[j]) == CheckUpstream(ups[j]);
    SameChecksSameVerdict(ups, ups');
  }

  lemma {:induction false} SameChecksSameVerdict(a: seq<AwsUpstream>, b: seq<AwsUpstream>)
    requires |a| == |b|
    requires forall j :: 0 <= j < |a| ==> CheckUpstream(a[j]) == CheckUpstream(b[j])
    ensures ValidateUpstreams(a) == ValidateUpstreams(b)
  {
    if a != [] {
      assert CheckUpstream(a[0]) == CheckUpstream(b[0]);
      assert forall j :: 0 <= j < |a| - 1 ==> a[1..][j] == a[j + 1] && b[1..][j] == b[j + 1];
      SameChecksSameVerdict(a[1..], b[1..]);
    }
  }

  /** Blanking or zeroing any single mandatory field of a valid config makes
      validation fail. */
  lemma BlankingAnyFieldFails(cfg: AwsConfig, i: nat)
    requires ConfigOk(cfg) && i < |cfg.upstreams|
    ensures ValidateAWSConfig(cfg.(region := "")).Some?
    ensures ValidateAWSConfig(cfg.(apiEndpoint := "")).Some?
    ensures ValidateAWSConfig(cfg.(syncIntervalInSeconds := 0)).Some?
    ensures ValidateAWSConfig(cfg.(upstreams := [])).Some?
    ensures ValidateAWSConfig(cfg.(upstreams := cfg.upstreams[i := cfg.upstreams[i].(name := "")])).Some?
    ensures ValidateAWSConfig(cfg.(upstreams := cfg.upstreams[i := cfg.upstreams[i].(autoscalingGroup := "")])).Some?
    ensures ValidateAWSConfig(cfg.(upstreams := cfg.upstreams[i := cfg.upstreams[i].(port := 0)])).Some?
    ensures ValidateAWSConfig(cfg.(upstreams := cfg.upstreams[i := cfg.upstreams[i].(kind := "")])).Some?
  {
    var u := cfg.upstreams[i];
    BlankedUpstreamFails(cfg, i, u.(name := ""));
    BlankedUpstreamFails(cfg, i, u.(autoscalingGroup := ""));
    BlankedUpstreamFails(cfg, i, u.(port := 0));
    BlankedUpstreamFails(cfg, i, u.(kind := ""));
  }

  lemma BlankedUpstreamFails(cfg: AwsConfig, i: nat, u: AwsUpstream)
    requires ConfigOk(cfg) && i < |cfg.upstreams|
    requires CheckUpstream(u).Some?
    ensures ValidateAWSConfig(cfg.(upstreams := cfg.upstreams[i := u])).Some?
  {
    var ups := cfg.upstreams[i := u];
    assert ups[i] == u;
    ValidateUpstreamsNoneIff(ups);
  }

  /** The valid config of the package's own unit test. */
  function SampleConfig(): AwsConfig {
    AwsConfig("us-west-2", "http://127.0.0.1:8080/api", 1,
              [AwsUpstream("backend1", "backend-group", 80, "http")])
  }

  lemma SampleConfigIsValid()
    ensures ValidateAWSConfig(SampleConfig()) == None
    ensures ValidateAWSConfig(SampleConfig().(upstreams := [])) == Some(NoUpstreams)
  {
  }
}

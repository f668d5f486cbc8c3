/** The daemon's startup sequence, its preflight checks and one tick of the
    reconciliation loop (cmd/sync/main.go), with the NGINX Plus client as an
    oracle. */
module Sync {
  import opened Wrappers
  import opened Config
  import opened Provider
  import opened Aws
  import opened Decimal

  /** The exit code of every fatal startup condition. */
  const FatalExitCode := 10

  /** The MaxFails value of every server the daemon submits. */
  const DefaultMaxFails := 1

  const Version := "0.2-1"

  /** An NGINX upstream server, HTTP or stream: address and max_fails. */
  datatype Server = Server(server: string, maxFails: int)

  /** What the NGINX client reports after applying a server list. */
  datatype ServerDiff = ServerDiff(added: seq<Server>, removed: seq<Server>)

  datatype NginxError = NginxError(reason: string)

  /** The two NGINX Plus APIs an upstream can live in. */
  datatype Api = HttpApi | StreamApi

  /** The NGINX Plus client, as functions from request to response. */
  datatype NginxApi = NginxApi(
    checkIfUpstreamExists: string -> Option<NginxError>,
    checkIfStreamUpstreamExists: string -> Option<NginxError>,
    updateHTTPServers: (string, seq<Server>) -> Result<ServerDiff, NginxError>,
    updateStreamServers: (string, seq<Server>) -> Result<ServerDiff, NginxError>)

  /** A request the daemon sends to the NGINX Plus API. */
  datatype NginxCall =
    | UpstreamCheck(api: Api, name: string)
    | ServersUpdate(api: Api, name: string, servers: seq<Server>)

  /** The daemon's log lines, by kind. */
  datatype LogEvent =
    | CloudProviderRequired
    | InvalidCloudProvider(provider: string)
    | VersionBanner(version: string)
    | ConfigRejected(path: string, err: ProviderError)
    | ConfigureFailed(err: ProviderError)
    | NginxClientFailed(nginxErr: NginxError)
    | NginxConfigProblem(nginxErr: NginxError)
    | CloudConfigProblem(err: ProviderError)
    | ScalingGroupMissing(group: string)
    | ResolveFailed(group: string, err: ProviderError)
    | UpdateFailed(api: Api, nginxErr: NginxError)
    | ServersUpdated(api: Api, upstream: Upstream, added: seq<Server>, removed: seq<Server>)

  /** The API an upstream's kind selects: "http" is HTTP, anything else stream. */
  function ApiFor(kind: string): (api: Api)
    ensures api == HttpApi <==> kind == "http"
  {
    if kind == "http" then HttpApi else StreamApi
  }

  function CheckOn(nginx: NginxApi, api: Api, name: string): Option<NginxError> {
    match api
    case HttpApi => nginx.checkIfUpstreamExists(name)
    case StreamApi => nginx.checkIfStreamUpstreamExists(name)
  }

  function UpdateOn(nginx: NginxApi, api: Api, name: string, servers: seq<Server>): Result<ServerDiff, NginxError> {
    match api
    case HttpApi => nginx.updateHTTPServers(name, servers)
    case StreamApi => nginx.updateStreamServers(name, servers)
  }

  // ---------------------------------------------------------------------------
  // The cloud_provider gate.

  /** The check on the `cloud_provider` flag, made before any config is read:
      `None` lets startup go on, `Some(e)` logs `e` and exits. */
  function CloudProviderGate(provider: string): (r: Option<LogEvent>)
    ensures r.None? <==> provider == "AWS"
    ensures provider == "" ==> r == Some(CloudProviderRequired)
    ensures provider != "" && provider != "AWS" ==> r == Some(InvalidCloudProvider(provider))
  {
    if provider != "" then
      if !ValidateCloudProvider(provider) then Some(InvalidCloudProvider(provider)) else None
    else Some(CloudProviderRequired)
  }

  // ---------------------------------------------------------------------------
  // Preflight.

  /** The outcome of preflight: the exit code if it ended the process, its log
      lines and the NGINX requests it made. */
  datatype Preflight = Preflight(exitCode: Option<int>, log: seq<LogEvent>, calls: seq<NginxCall>)

  function Prepend(log: seq<LogEvent>, calls: seq<NginxCall>, p: Preflight): Preflight {
    Preflight(p.exitCode, log + p.log, calls + p.calls)
  }

  /** What preflight does for upstream `u`, `rest` being what it does for the
      upstreams after it. */
  function PreflightOne(u: Upstream, nginx: NginxApi, check: string -> GroupCheck, rest: Preflight): (r: Preflight)
    ensures |r.calls| > 0 && r.calls[0] == UpstreamCheck(ApiFor(u.kind), u.name)
    ensures r.exitCode.None? <==>
              CheckOn(nginx, ApiFor(u.kind), u.name).None? && check(u.scalingGroup).err.None? && rest.exitCode.None?
  {
    var api := ApiFor(u.kind);
    var call := UpstreamCheck(api, u.name);
    var nerr := CheckOn(nginx, api, u.name);
    if nerr.Some? then Preflight(Some(FatalExitCode), [NginxConfigProblem(nerr.value)], [call])
    else
      var gc := check(u.scalingGroup);
      if gc.err.Some? then Preflight(Some(FatalExitCode), [CloudConfigProblem(gc.err.value)], [call])
      else
        var warning := if gc.found then [] else [ScalingGroupMissing(u.scalingGroup)];
        Prepend(warning, [call], rest)
  }

  /** Preflight over the upstreams, with `check` answering the scaling-group
      question for a group name. */
  function PreflightRun(ups: seq<Upstream>, nginx: NginxApi, check: string -> GroupCheck): (r: Preflight)
    ensures |r.calls| <= |ups|
    ensures r.exitCode.Some? ==> r.exitCode == Some(FatalExitCode)
    decreases |ups|
  {
    if ups == [] then Preflight(None, [], [])
    else PreflightOne(ups[0], nginx, check, PreflightRun(ups[1..], nginx, check))
  }

  /** The scaling-group check the AWS client performs, as written. */
  function AsWrittenCheck(svc: AwsServices): string -> GroupCheck {
    name => CheckIfScalingGroupExists(svc, name)
  }

  /** The corrected scaling-group check. */
  function CorrectedCheck(svc: AwsServices): string -> GroupCheck {
    name => CheckIfScalingGroupExistsCorrected(svc, name)
  }

  /** Preflight: for each upstream, ask NGINX whether it exists in the API its
      kind selects, then ask the provider whether its scaling group exists;
      either error exits with code 10, a missing group only logs a warning.
      `check` is the provider's CheckIfScalingGroupExists: main reaches it
      through the provider interface. */
  method RunPreflight(client: AWSClient, nginx: NginxApi, check: string -> GroupCheck)
    returns (exitCode: Option<int>, log: seq<LogEvent>, calls: seq<NginxCall>)
    requires client.Valid() && client.config.Some?
    ensures Preflight(exitCode, log, calls) == PreflightRun(UpstreamsOf(client.config.value), nginx, check)
  {
    var ups := client.GetUpstreamsConfig();
    ghost var full := PreflightRun(ups, nginx, check);
    exitCode, log, calls := None, [], [];
    var i := 0;
    while i < |ups|
      invariant 0 <= i <= |ups|
      invariant exitCode == None
      invariant full == Prepend(log, calls, PreflightRun(ups[i..], nginx, check))
    {
      PreflightStep(ups, i, nginx, check);
      ghost var rest := PreflightRun(ups[i + 1..], nginx, check);
      var fatal, lines, call := PreflightUpstream(ups[i], nginx, check);
      PrependTwice(log, lines, calls, [call], rest);
      log, calls := log + lines, calls + [call];
      if fatal {
        exitCode := Some(FatalExitCode);
        return;
      }
      i := i + 1;
    }
    assert ups[i..] == [];
  }

  /** The body of the preflight loop for one upstream: the NGINX request it
      makes, the lines it logs, and whether it ends the process. */
  method PreflightUpstream(u: Upstream, nginx: NginxApi, check: string -> GroupCheck)
    returns (fatal: bool, lines: seq<LogEvent>, call: NginxCall)
    ensures forall rest: Preflight ::
              PreflightOne(u, nginx, check, rest) ==
              if fatal then Preflight(Some(FatalExitCode), lines, [call]) else Prepend(lines, [call], rest)
  {
    var err: Option<NginxError>;
    if u.kind == "http" {
      err := nginx.checkIfUpstreamExists(u.name);
      call := UpstreamCheck(HttpApi, u.name);
    } else {
      err := nginx.checkIfStreamUpstreamExists(u.name);
      call := UpstreamCheck(StreamApi, u.name);
    }
    if err.Some? {
      return true, [NginxConfigProblem(err.value)], call;
    }
    var gc := check(u.scalingGroup);
    if gc.err.Some? {
      return true, [CloudConfigProblem(gc.err.value)], call;
    } else if !gc.found {
      lines := [ScalingGroupMissing(u.scalingGroup)];
    } else {
      lines := [];
    }
    fatal := false;
  }

  lemma PrependTwice(log0: seq<LogEvent>, log1: seq<LogEvent>, calls0: seq<NginxCall>, calls1: seq<NginxCall>, p: Preflight)
    ensures Prepend(log0, calls0, Prepend(log1, calls1, p)) == Prepend(log0 + log1, calls0 + calls1, p)
  {
    assert log0 + (log1 + p.log) == (log0 + log1) + p.log;
    assert calls0 + (calls1 + p.calls) == (calls0 + calls1) + p.calls;
  }

  /** One step of preflight, at upstream `i`. */
  lemma PreflightStep(ups: seq<Upstream>, i: nat, nginx: NginxApi, check: string -> GroupCheck)
    requires i < |ups|
    ensures PreflightRun(ups[i..], nginx, check) == PreflightOne(ups[i], nginx, check, PreflightRun(ups[i + 1..], nginx, check))
  {
    assert ups[i..][0] == ups[i] && ups[i..][1..] == ups[i + 1..];
  }

  /** Preflight asks about the upstreams in order, each in the API its kind
      selects, and on exit uses code 10. */
  lemma {:induction false} PreflightCallsFollowKind(ups: seq<Upstream>, nginx: NginxApi, check: string -> GroupCheck)
    ensures var r := PreflightRun(ups, nginx, check);
            && |r.calls| <= |ups|
            && (ups != [] ==> |r.calls| > 0)
            && (forall k :: 0 <= k < |r.calls| ==> r.calls[k] == UpstreamCheck(ApiFor(ups[k].kind), ups[k].name))
            && (r.exitCode.Some? ==> r.exitCode.value == FatalExitCode)
    decreases |ups|
  {
    if ups != [] {
      PreflightCallsFollowKind(ups[1..], nginx, check);
    }
  }

  /** One missing-group warning per upstream whose group the check did not
      find, in upstream order (an upstream sharing a missing group with an
      earlier one is warned about again). */
  function MissingGroupWarnings(ups: seq<Upstream>, check: string -> GroupCheck): (r: seq<LogEvent>)
    ensures |r| <= |ups|
    ensures forall e :: e in r ==> e.ScalingGroupMissing?
  {
    if ups == [] then []
    else
      var g := ups[0].scalingGroup;
      (if check(g).found then [] else [ScalingGroupMissing(g)]) + MissingGroupWarnings(ups[1..], check)
  }

  /** Preflight lets startup go on exactly when every NGINX check and every
      scaling-group check returned no error; it then asked about every
      upstream and logged only warnings for missing groups. */
  lemma {:induction false} PreflightProceedsIff(ups: seq<Upstream>, nginx: NginxApi, check: string -> GroupCheck)
    ensures var r := PreflightRun(ups, nginx, check);
            r.exitCode.None? <==>
              forall k :: 0 <= k < |ups| ==>
                CheckOn(nginx, ApiFor(ups[k].kind), ups[k].name).None? && check(ups[k].scalingGroup).err.None?
    ensures var r := PreflightRun(ups, nginx, check);
            r.exitCode.None? ==> r.log == MissingGroupWarnings(ups, check)
    ensures var r := PreflightRun(ups, nginx, check);
            r.exitCode.None? ==>
              && |r.calls| == |ups|
              && (forall e :: e in r.log ==> e.ScalingGroupMissing?)
              && (forall g :: ScalingGroupMissing(g) in r.log <==>
                    exists k :: 0 <= k < |ups| && ups[k].scalingGroup == g && !check(g).found)
    decreases |ups|
  {
    if ups != [] {
      var r := PreflightRun(ups, nginx, check);
      var rest := PreflightRun(ups[1..], nginx, check);
      PreflightProceedsIff(ups[1..], nginx, check);
      assert forall k :: 1 <= k < |ups| ==> ups[k] == ups[1..][k - 1];
      if r.exitCode.None? {
        forall g ensures ScalingGroupMissing(g) in r.log <==>
                         exists k :: 0 <= k < |ups| && ups[k].scalingGroup == g && !check(g).found
        {
          if ScalingGroupMissing(g) in rest.log {
            var k :| 0 <= k < |ups[1..]| && ups[1..][k].scalingGroup == g && !check(g).found;
            assert ups[k + 1].scalingGroup == g;
          }
        }
      }
    }
  }

  /** With the scaling-group check as written, preflight always stops at the
      first upstream with exit code 10, after a single NGINX request. */
  lemma AsWrittenPreflightAlwaysExits(ups: seq<Upstream>, nginx: NginxApi, svc: AwsServices)
    requires ups != []
    ensures var r := PreflightRun(ups, nginx, AsWrittenCheck(svc));
            r.exitCode == Some(FatalExitCode) && |r.calls| == 1 && |r.log| == 1
  {
    var gc := AsWrittenCheck(svc)(ups[0].scalingGroup);
    assert gc.err.Some?;
  }

  /** With the corrected check, preflight goes on whenever NGINX knows every
      upstream and every group lookup got an answer, whether or not the groups
      exist. */
  lemma CorrectedPreflightProceeds(ups: seq<Upstream>, nginx: NginxApi, svc: AwsServices)
    requires forall k :: 0 <= k < |ups| ==> CheckOn(nginx, ApiFor(ups[k].kind), ups[k].name).None?
    requires forall k :: 0 <= k < |ups| ==> svc.describeAutoScalingGroups(ups[k].scalingGroup).Ok?
    ensures var r := PreflightRun(ups, nginx, CorrectedCheck(svc));
            r.exitCode.None? && |r.calls| == |ups|
  {
    PreflightProceedsIff(ups, nginx, CorrectedCheck(svc));
  }

  // ---------------------------------------------------------------------------
  // One tick of the reconciliation loop.

  /** The address of a server: `ip:port`, the port in decimal. */
  function ServerAddress(ip: string, port: int): (r: string)
    ensures |r| > |ip| + 1 && r[|ip|] == ':'
    ensures forall k :: 0 <= k < |ip| ==> r[k] == ip[k]
  {
    ip + ":" + IntToDecimal(port)
  }

  /** The server list a tick submits for the resolved addresses. */
  function DesiredServers(ips: seq<string>, port: int): (r: seq<Server>)
    ensures |r| == |ips|
    ensures forall k :: 0 <= k < |r| ==> r[k].maxFails == 1
  {
    seq(|ips|, k requires 0 <= k < |ips| => Server(ServerAddress(ips[k], port), DefaultMaxFails))
  }

  /** The inner loop of a tick: one server per address, in order, each with
      MaxFails 1. */
  method BuildServers(ips: seq<string>, port: int) returns (servers: seq<Server>)
    ensures |servers| == |ips|
    ensures forall k :: 0 <= k < |ips| ==>
              servers[k].server == ips[k] + ":" + IntToDecimal(port) && servers[k].maxFails == 1
    ensures servers == DesiredServers(ips, port)
  {
    servers := [];
    for j := 0 to |ips|
      invariant |servers| == j
      invariant forall k :: 0 <= k < j ==> servers[k] == Server(ServerAddress(ips[k], port), DefaultMaxFails)
    {
      servers := servers + [Server(ServerAddress(ips[j], port), DefaultMaxFails)];
    }
  }

  /** The address names the instance's IP and, read back, exactly the port. */
  lemma ServerAddressEncodesPort(ip: string, port: int)
    ensures var a := ServerAddress(ip, port);
            && |a| > |ip| + 1
            && a[..|ip|] == ip && a[|ip|] == ':'
            && a[|ip| + 1..] == IntToDecimal(port)
            && DecimalValue(a[|ip| + 1..]) == port
  {
    var a := ServerAddress(ip, port);
    assert a[|ip| + 1..] == IntToDecimal(port);
    IntToDecimalRoundTrip(port);
  }

  /** Two instances at 10.0.0.1 and 10.0.0.2 behind port 80. */
  lemma TwoInstanceExample()
    ensures DesiredServers(["10.0.0.1", "10.0.0.2"], 80) ==
            [Server("10.0.0.1:80", 1), Server("10.0.0.2:80", 1)]
  {
    assert IntToDecimal(80) == "80" by {
      assert NatToDecimal(8) == "8";
      assert NatToDecimal(80) == NatToDecimal(8) + [DigitChar(0)];
    }
    assert ServerAddress("10.0.0.1", 80) == "10.0.0.1:80";
    assert ServerAddress("10.0.0.2", 80) == "10.0.0.2:80";
  }

  /** The log lines and NGINX requests of (part of) a tick. */
  datatype TickOutcome = TickOutcome(log: seq<LogEvent>, calls: seq<NginxCall>)

  function Join(a: TickOutcome, b: TickOutcome): TickOutcome {
    TickOutcome(a.log + b.log, a.calls + b.calls)
  }

  /** What a tick does for one upstream whose IP resolution gave `resolved`. */
  function UpstreamStep(u: Upstream, resolved: Result<seq<string>, ProviderError>, nginx: NginxApi): (r: TickOutcome)
    ensures |r.log| <= 1
    ensures r.calls == [] <==> resolved.Err?
    ensures |r.calls| <= 1
  {
    match resolved
    case Err(e) => TickOutcome([ResolveFailed(u.scalingGroup, e)], [])
    case Ok(ips) =>
      var api := ApiFor(u.kind);
      var servers := DesiredServers(ips, u.port);
      var call := ServersUpdate(api, u.name, servers);
      match UpdateOn(nginx, api, u.name, servers)
      case Err(e) => TickOutcome([UpdateFailed(api, e)], [call])
      case Ok(d) =>
        var changed := if |d.added| > 0 || |d.removed| > 0 then [ServersUpdated(api, u, d.added, d.removed)] else [];
        TickOutcome(changed, [call])
  }

  /** The provider's GetPrivateIPsForScalingGroup, as a function of the group name. */
  function ResolverOf(svc: AwsServices): string -> Result<seq<string>, ProviderError> {
    name => PrivateIPs(svc, name)
  }

  /** A whole tick over the upstreams, `resolve` giving each group's addresses. */
  function TickRun(ups: seq<Upstream>, resolve: string -> Result<seq<string>, ProviderError>, nginx: NginxApi): (r: TickOutcome)
    ensures |r.log| <= |ups| && |r.calls| <= |ups|
    decreases |ups|
  {
    if ups == [] then TickOutcome([], [])
    else Join(UpstreamStep(ups[0], resolve(ups[0].scalingGroup), nginx), TickRun(ups[1..], resolve, nginx))
  }

  /** One tick: resolve each upstream's addresses, submit the server list to
      the API its kind selects, skip the upstream on either error, and log
      only when servers were added or removed. */
  method Tick(client: AWSClient, nginx: NginxApi) returns (log: seq<LogEvent>, calls: seq<NginxCall>)
    requires client.Valid() && client.config.Some? && client.services.Some?
    ensures TickOutcome(log, calls) == TickRun(UpstreamsOf(client.config.value), ResolverOf(client.services.value), nginx)
  {
    var resolve := ResolverOf(client.services.value);
    var ups := client.GetUpstreamsConfig();
    log, calls := [], [];
    for i := 0 to |ups|
      invariant TickRun(ups, resolve, nginx) == Join(TickOutcome(log, calls), TickRun(ups[i..], resolve, nginx))
    {
      TickStep(ups, i, resolve, nginx);
      var lines, sent := SyncUpstream(client, nginx, ups[i]);
      JoinTwice(TickOutcome(log, calls), TickOutcome(lines, sent), TickRun(ups[i + 1..], resolve, nginx));
      log, calls := log + lines, calls + sent;
    }
    assert ups[|ups|..] == [];
  }

  /** The body of the sync loop for one upstream: resolve the scaling group's
      addresses, submit them to NGINX, and log the outcome. */
  method SyncUpstream(client: AWSClient, nginx: NginxApi, upstream: Upstream)
    returns (log: seq<LogEvent>, calls: seq<NginxCall>)
    requires client.Valid() && client.config.Some? && client.services.Some?
    ensures TickOutcome(log, calls) == UpstreamStep(upstream, ResolverOf(client.services.value)(upstream.scalingGroup), nginx)
  {
    log, calls := [], [];
    var ips := client.GetPrivateIPsForScalingGroup(upstream.scalingGroup);
    if ips.Err? {
      log := [ResolveFailed(upstream.scalingGroup, ips.error)];
      return;
    }
    var upsServers := BuildServers(ips.value, upstream.port);
    var api: Api;
    var update: Result<ServerDiff, NginxError>;
    if upstream.kind == "http" {
      api := HttpApi;
      update := nginx.updateHTTPServers(upstream.name, upsServers);
    } else {
      api := StreamApi;
      update := nginx.updateStreamServers(upstream.name, upsServers);
    }
    calls := [ServersUpdate(api, upstream.name, upsServers)];
    if update.Err? {
      log := [UpdateFailed(api, update.error)];
      return;
    }
    var diff := update.value;
    if |diff.added| > 0 || |diff.removed| > 0 {
      log := [ServersUpdated(api, upstream, diff.added, diff.removed)];
    }
  }

  lemma TickStep(ups: seq<Upstream>, i: nat, resolve: string -> Result<seq<string>, ProviderError>, nginx: NginxApi)
    requires i < |ups|
    ensures TickRun(ups[i..], resolve, nginx) ==
            Join(UpstreamStep(ups[i], resolve(ups[i].scalingGroup), nginx), TickRun(ups[i + 1..], resolve, nginx))
  {
    assert ups[i..][0] == ups[i] && ups[i..][1..] == ups[i + 1..];
  }

  lemma JoinTwice(a: TickOutcome, b: TickOutcome, c: TickOutcome)
    ensures Join(a, Join(b, c)) == Join(Join(a, b), c)
  {
    assert a.log + (b.log + c.log) == (a.log + b.log) + c.log;
    assert a.calls + (b.calls + c.calls) == (a.calls + b.calls) + c.calls;
  }

  lemma {:induction false} TickAppend(a: seq<Upstream>, b: seq<Upstream>, resolve: string -> Result<seq<string>, ProviderError>, nginx: NginxApi)
    ensures TickRun(a + b, resolve, nginx) == Join(TickRun(a, resolve, nginx), TickRun(b, resolve, nginx))
    decreases |a|
  {
    if a == [] {
      assert a + b == b;
    } else {
      assert (a + b)[0] == a[0] && (a + b)[1..] == a[1..] + b;
      var step := UpstreamStep(a[0], resolve(a[0].scalingGroup), nginx);
      assert TickRun(a + b, resolve, nginx) == Join(step, TickRun(a[1..] + b, resolve, nginx));
      TickAppend(a[1..], b, resolve, nginx);
      JoinTwice(step, TickRun(a[1..], resolve, nginx), TickRun(b, resolve, nginx));
    }
  }

  /** Upstreams are processed independently: what a tick does for upstream `i`
      depends only on that upstream, and whatever happens to it, the ones before
      and after it are processed as if it were absent. */
  lemma TickDecomposes(ups: seq<Upstream>, i: nat, resolve: string -> Result<seq<string>, ProviderError>, nginx: NginxApi)
    requires i < |ups|
    ensures TickRun(ups, resolve, nginx) ==
            Join(TickRun(ups[..i], resolve, nginx),
                 Join(UpstreamStep(ups[i], resolve(ups[i].scalingGroup), nginx),
                      TickRun(ups[i + 1..], resolve, nginx)))
  {
    assert ups == ups[..i] + ups[i..];
    TickAppend(ups[..i], ups[i..], resolve, nginx);
    assert ups[i..][0] == ups[i] && ups[i..][1..] == ups[i + 1..];
  }

  /** A failed resolution logs one error and submits nothing for the upstream. */
  lemma StepOnResolveFailure(u: Upstream, e: ProviderError, nginx: NginxApi)
    ensures UpstreamStep(u, Err(e), nginx) == TickOutcome([ResolveFailed(u.scalingGroup, e)], [])
  {
  }

  /** A resolved upstream gets exactly one submission, in the API its kind
      selects, of one server per address with MaxFails 1; a failed submission
      logs one error; a successful one is logged iff something changed. */
  lemma StepOnResolved(u: Upstream, ips: seq<string>, nginx: NginxApi)
    ensures var r := UpstreamStep(u, Ok(ips), nginx);
            && r.calls == [ServersUpdate(ApiFor(u.kind), u.name, DesiredServers(ips, u.port))]
            && |r.calls[0].servers| == |ips|
            && (forall k :: 0 <= k < |ips| ==>
                  r.calls[0].servers[k] == Server(ips[k] + ":" + IntToDecimal(u.port), 1))
    ensures var r := UpstreamStep(u, Ok(ips), nginx);
            var resp := UpdateOn(nginx, ApiFor(u.kind), u.name, DesiredServers(ips, u.port));
            && (resp.Err? ==> r.log == [UpdateFailed(ApiFor(u.kind), resp.error)])
            && (resp.Ok? ==> (r.log != [] <==> |resp.value.added| > 0 || |resp.value.removed| > 0))
            && (resp.Ok? && r.log != [] ==>
                  r.log == [ServersUpdated(ApiFor(u.kind), u, resp.value.added, resp.value.removed)])
  {
  }

  /** The submissions of a tick: one per upstream whose addresses resolved, in
      upstream order, and none for the others. */
  lemma {:induction false} TickSubmissions(ups: seq<Upstream>, resolve: string -> Result<seq<string>, ProviderError>, nginx: NginxApi)
    ensures var r := TickRun(ups, resolve, nginx);
            && |r.calls| <= |ups|
            && (forall c :: c in r.calls <==>
                  exists k :: 0 <= k < |ups| && resolve(ups[k].scalingGroup).Ok? &&
                    c == ServersUpdate(ApiFor(ups[k].kind), ups[k].name,
                                       DesiredServers(resolve(ups[k].scalingGroup).value, ups[k].port)))
    decreases |ups|
  {
    if ups != [] {
      TickSubmissions(ups[1..], resolve, nginx);
      assert forall k :: 1 <= k < |ups| ==> ups[k] == ups[1..][k - 1];
      var r := TickRun(ups, resolve, nginx);
      var rest := TickRun(ups[1..], resolve, nginx);
      forall c ensures c in r.calls <==>
                  exists k :: 0 <= k < |ups| && resolve(ups[k].scalingGroup).Ok? &&
                    c == ServersUpdate(ApiFor(ups[k].kind), ups[k].name,
                                       DesiredServers(resolve(ups[k].scalingGroup).value, ups[k].port))
      {
        if c in rest.calls {
          var k :| 0 <= k < |ups[1..]| && resolve(ups[1..][k].scalingGroup).Ok? &&
                    c == ServersUpdate(ApiFor(ups[1..][k].kind), ups[1..][k].name,
                                       DesiredServers(resolve(ups[1..][k].scalingGroup).value, ups[1..][k].port));
          assert ups[k + 1] == ups[1..][k];
        }
      }
    }
  }

  // ---------------------------------------------------------------------------
  // Startup.

  /** The log lines that explain an exit after the config was accepted. */
  predicate IsFatalReason(e: LogEvent) {
    e.ConfigureFailed? || e.NginxClientFailed? || e.NginxConfigProblem? || e.CloudConfigProblem?
  }

  /** How startup ends: the process exits, or it enters the sync loop. */
  datatype Outcome = Exited(code: int) | Syncing

  /** main up to the sync loop. `loaded` is the outcome of reading and parsing
      the file named by `config_path`, `newSession` stands for the AWS session
      constructor and `newNginxClient` for the NGINX client constructor, both
      applied to the values main passes them. */
  method Run(cloudProvider: string, configPath: string, loaded: Result<AwsConfig, ProviderError>,
             newSession: string -> Result<AwsServices, ProviderError>,
             newNginxClient: string -> Result<NginxApi, NginxError>)
    returns (outcome: Outcome, log: seq<LogEvent>)
    ensures cloudProvider == "" ==> log == [CloudProviderRequired]
    ensures cloudProvider != "" && cloudProvider != "AWS" ==> log == [InvalidCloudProvider(cloudProvider)]
    ensures cloudProvider == "AWS" && (loaded.Err? || !ConfigOk(loaded.value)) ==>
              |log| == 2 && log[0] == VersionBanner(Version) && log[1].ConfigRejected?
    ensures cloudProvider == "AWS" && loaded.Ok? && ConfigOk(loaded.value) ==>
              |log| >= 2 && log[0] == VersionBanner(Version) && IsFatalReason(log[|log| - 1])
    ensures cloudProvider == "AWS" && loaded.Err? ==>
              log == [VersionBanner(Version), ConfigRejected(configPath, loaded.error)]
    ensures cloudProvider == "AWS" && loaded.Ok? && ValidateAWSConfig(loaded.value).Some? ==>
              log == [VersionBanner(Version), ConfigRejected(configPath, InvalidConfig(ValidateAWSConfig(loaded.value).value))]
    ensures cloudProvider == "AWS" && loaded.Ok? && ConfigOk(loaded.value) && newSession(loaded.value.region).Err? ==>
              log == [VersionBanner(Version), ConfigureFailed(newSession(loaded.value.region).error)]
    ensures cloudProvider == "AWS" && loaded.Ok? && ConfigOk(loaded.value) && newSession(loaded.value.region).Ok? &&
            newNginxClient(loaded.value.apiEndpoint).Err? ==>
              log == [VersionBanner(Version), NginxClientFailed(newNginxClient(loaded.value.apiEndpoint).error)]
    ensures cloudProvider == "AWS" && loaded.Ok? && ConfigOk(loaded.value) && newSession(loaded.value.region).Ok? &&
            newNginxClient(loaded.value.apiEndpoint).Ok? ==>
              log == [VersionBanner(Version)] +
                     PreflightRun(UpstreamsOf(loaded.value), newNginxClient(loaded.value.apiEndpoint).value,
                                  AsWrittenCheck(newSession(loaded.value.region).value)).log
    ensures outcome == Exited(FatalExitCode)
  {
    var gate := CloudProviderGate(cloudProvider);
    if gate.Some? {
      return Exited(FatalExitCode), [gate.value];
    }
    log := [VersionBanner(Version)];
    var client := new AWSClient();
    var err := client.ValidateAndSaveConfig(configPath, loaded);
    if err.Some? {
      return Exited(FatalExitCode), log + [ConfigRejected(configPath, err.value)];
    }
    err := client.Configure(newSession);
    if err.Some? {
      return Exited(FatalExitCode), log + [ConfigureFailed(err.value)];
    }
    var nginx := newNginxClient(client.GetAPIEndpoint());
    if nginx.Err? {
      return Exited(FatalExitCode), log + [NginxClientFailed(nginx.error)];
    }
    var code, preflightLog, _ := RunPreflight(client, nginx.value, AsWrittenCheck(client.services.value));
    AsWrittenPreflightAlwaysExits(UpstreamsOf(client.config.value), nginx.value, client.services.value);
    log := log + preflightLog;
    PreflightLogIsFatal(UpstreamsOf(client.config.value), nginx.value, AsWrittenCheck(client.services.value));
    outcome := if code.Some? then Exited(code.value) else Syncing;
  }

  /** The line preflight logs before exiting on upstream `u`, if one of its
      two checks fails: the NGINX error first, else the provider's error. */
  function FailureLine(u: Upstream, nginx: NginxApi, check: string -> GroupCheck): (r: Option<LogEvent>)
    ensures r.None? <==> CheckOn(nginx, ApiFor(u.kind), u.name).None? && check(u.scalingGroup).err.None?
    ensures r.Some? ==> r.value.NginxConfigProblem? || r.value.CloudConfigProblem?
  {
    var nerr := CheckOn(nginx, ApiFor(u.kind), u.name);
    if nerr.Some? then Some(NginxConfigProblem(nerr.value))
    else if check(u.scalingGroup).err.Some? then Some(CloudConfigProblem(check(u.scalingGroup).err.value))
    else None
  }

  /** A preflight that exits stops at the first upstream `k` whose checks fail:
      every earlier upstream passed both, upstream `k` was the last one asked
      about, and the log ends with the error of its failing check. */
  lemma {:induction false} PreflightLogIsFatal(ups: seq<Upstream>, nginx: NginxApi, check: string -> GroupCheck)
    ensures var r := PreflightRun(ups, nginx, check);
            r.exitCode.Some? ==> |r.log| > 0 && (r.log[|r.log| - 1].NginxConfigProblem? || r.log[|r.log| - 1].CloudConfigProblem?)
    ensures var r := PreflightRun(ups, nginx, check);
            r.exitCode.Some? ==>
              exists k :: 0 <= k < |ups|
                && (forall j :: 0 <= j < k ==> FailureLine(ups[j], nginx, check).None?)
                && |r.calls| == k + 1
                && FailureLine(ups[k], nginx, check) == Some(r.log[|r.log| - 1])
    decreases |ups|
  {
    if ups != [] {
      var r := PreflightRun(ups, nginx, check);
      var rest := PreflightRun(ups[1..], nginx, check);
      PreflightLogIsFatal(ups[1..], nginx, check);
      if r.exitCode.Some? {
        if FailureLine(ups[0], nginx, check).Some? {
          assert |r.calls| == 1 && FailureLine(ups[0], nginx, check) == Some(r.log[|r.log| - 1]);
        } else {
          var k :| 0 <= k < |ups[1..]|
                && (forall j :: 0 <= j < k ==> FailureLine(ups[1..][j], nginx, check).None?)
                && |rest.calls| == k + 1
                && FailureLine(ups[1..][k], nginx, check) == Some(rest.log[|rest.log| - 1]);
          assert forall j :: 1 <= j < k + 1 ==> ups[j] == ups[1..][j - 1];
          assert r.log[|r.log| - 1] == rest.log[|rest.log| - 1];
          assert FailureLine(ups[k + 1], nginx, check) == Some(r.log[|r.log| - 1]);
        }
      }
    }
  }
}

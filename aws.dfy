/** The AWS implementation of the cloud-provider capability set
    (cmd/sync/aws.go), over plain datatypes for the SDK's responses. */
module Aws {
  import opened Wrappers
  import opened Config
  import opened Provider

  /** Errors the provider returns. The SDK's and the file system's own errors
      are opaque and carry only a reason. */
  datatype ProviderError =
    | LoadFailed(reason: string)           // reading or unmarshalling the config file
    | InvalidConfig(cause: ConfigError)    // validateAWSConfig rejected it
    | SessionFailed(reason: string)        // session.NewSession failed
    | ApiFailed(reason: string)            // an SDK call failed
    | GroupNotFound(name: string)          // "autoscaling group ... doesn't exist"
    | ExistenceCheckFailed(lookupError: Option<ProviderError>)  // the wrapper of CheckIfScalingGroupExists

  // ---------------------------------------------------------------------------
  // The parts of the SDK's responses the client reads.

  /** An entry of `autoscaling.Group.Instances`; the id is a Go `*string`. */
  datatype GroupInstance = GroupInstance(instanceId: Option<string>)

  datatype AutoScalingGroup = AutoScalingGroup(name: string, instances: seq<GroupInstance>)

  /** An EC2 network interface; the private address is a Go `*string`. */
  datatype NetworkInterface = NetworkInterface(privateIpAddress: Option<string>)

  datatype Instance = Instance(networkInterfaces: seq<NetworkInterface>)

  datatype Reservation = Reservation(instances: seq<Instance>)

  /** The two SDK services of a configured client, as functions from the
      request to the response: DescribeAutoScalingGroups for one group name,
      and DescribeInstances for a list of instance ids. */
  datatype AwsServices = AwsServices(
    describeAutoScalingGroups: string -> Result<seq<AutoScalingGroup>, ProviderError>,
    describeInstances: seq<Option<string>> -> Result<seq<Reservation>, ProviderError>)

  // ---------------------------------------------------------------------------
  // getAutoscalingGroup and CheckIfScalingGroupExists.

  /** getAutoscalingGroup: `Ok(Some(g))` is (g, true, nil), `Ok(None)` is
      (nil, false, nil), `Err(e)` is (nil, false, e). */
  function GetAutoscalingGroup(svc: AwsServices, name: string): (r: Result<Option<AutoScalingGroup>, ProviderError>)
    ensures r.Ok? && r.value.Some? ==> svc.describeAutoScalingGroups(name) == Ok([r.value.value])
  {
    match svc.describeAutoScalingGroups(name)
    case Err(e) => Err(e)
    case Ok(groups) =>
      if |groups| != 1 then Ok(None)
      else assert groups == [groups[0]]; Ok(Some(groups[0]))
  }

  /** A group exists exactly when the response lists exactly one group; an API
      error is passed through. */
  lemma ExactlyOneGroupExists(svc: AwsServices, name: string)
    ensures var resp := svc.describeAutoScalingGroups(name);
            var r := GetAutoscalingGroup(svc, name);
            && (r.Err? <==> resp.Err?)
            && (resp.Err? ==> r == Err(resp.error))
            && (resp.Ok? ==> (r.value.Some? <==> |resp.value| == 1))
            && (resp.Ok? && |resp.value| == 1 ==> r.value.value == resp.value[0])
  {
  }

  /** The result of CheckIfScalingGroupExists: the `exists` flag and the error. */
  datatype GroupCheck = GroupCheck(found: bool, err: Option<ProviderError>)

  /** CheckIfScalingGroupExists as written: the flag is passed through, but the
      lookup's error is wrapped even when it is nil, so the error returned is
      never nil. */
  function CheckIfScalingGroupExists(svc: AwsServices, name: string): (r: GroupCheck)
    ensures r.err.Some?
    ensures r.found <==> GetAutoscalingGroup(svc, name).Ok? && GetAutoscalingGroup(svc, name).value.Some?
  {
    var lookup := GetAutoscalingGroup(svc, name);
    GroupCheck(lookup.Ok? && lookup.value.Some?,
               Some(ExistenceCheckFailed(if lookup.Err? then Some(lookup.error) else None)))
  }

  /** The evidently intended CheckIfScalingGroupExists: an error only when the
      lookup itself failed, so "absent" and "query failed" are told apart. */
  function CheckIfScalingGroupExistsCorrected(svc: AwsServices, name: string): (r: GroupCheck)
    ensures r.err.None? <==> svc.describeAutoScalingGroups(name).Ok?
    ensures r.found <==> svc.describeAutoScalingGroups(name).Ok? && |svc.describeAutoScalingGroups(name).value| == 1
    ensures r.found ==> r.err.None?
  {
    match GetAutoscalingGroup(svc, name)
    case Err(e) => GroupCheck(false, Some(ExistenceCheckFailed(Some(e))))
    case Ok(g) => GroupCheck(g.Some?, None)
  }

  /** As written the check reports an error even for a lookup that succeeded
      and found the group. */
  lemma CheckReportsErrorOnSuccess(svc: AwsServices, name: string)
    requires svc.describeAutoScalingGroups(name).Ok? && |svc.describeAutoScalingGroups(name).value| == 1
    ensures CheckIfScalingGroupExists(svc, name) == GroupCheck(true, Some(ExistenceCheckFailed(None)))
    ensures CheckIfScalingGroupExistsCorrected(svc, name) == GroupCheck(true, None)
  {
  }

  // ---------------------------------------------------------------------------
  // Specification functions for getInstancesOfAutoscalingGroup and
  // GetPrivateIPsForScalingGroup.

  /** The ids of a group's instances, in the group's order. */
  function GroupInstanceIds(g: AutoScalingGroup): (ids: seq<Option<string>>)
    ensures |ids| == |g.instances|
    ensures forall k :: 0 <= k < |ids| ==> ids[k] == g.instances[k].instanceId
  {
    seq(|g.instances|, k requires 0 <= k < |g.instances| => g.instances[k].instanceId)
  }

  /** The instances of all reservations, reservation by reservation. */
  function Flatten(rs: seq<Reservation>): (r: seq<Instance>)
    ensures forall k, x :: 0 <= k < |rs| && x in rs[k].instances ==> x in r
  {
    if rs == [] then [] else rs[0].instances + Flatten(rs[1..])
  }

  lemma {:induction false} FlattenAppend(a: seq<Reservation>, b: seq<Reservation>)
    ensures Flatten(a + b) == Flatten(a) + Flatten(b)
  {
    if a != [] {
      assert (a + b)[1..] == a[1..] + b;
      FlattenAppend(a[1..], b);
    } else {
      assert a + b == b;
    }
  }

  /** An instance is in the flattened list exactly when some reservation holds it. */
  lemma {:induction false} FlattenMembership(rs: seq<Reservation>, x: Instance)
    ensures x in Flatten(rs) <==> exists k :: 0 <= k < |rs| && x in rs[k].instances
  {
    if rs != [] {
      FlattenMembership(rs[1..], x);
      assert forall k :: 1 <= k < |rs| ==> rs[k] == rs[1..][k - 1];
      if x in Flatten(rs[1..]) {
        var k :| 0 <= k < |rs[1..]| && x in rs[1..][k].instances;
        assert x in rs[k + 1].instances;
      }
    }
  }

  /** getInstancesOfAutoscalingGroup: no request for a group without
      instances, otherwise one DescribeInstances request with all the ids. */
  function InstancesOf(svc: AwsServices, g: AutoScalingGroup): (r: Result<seq<Instance>, ProviderError>)
    ensures r.Err? ==> |g.instances| > 0 && svc.describeInstances(GroupInstanceIds(g)) == Err(r.error)
  {
    if |g.instances| == 0 then Ok([])
    else match svc.describeInstances(GroupInstanceIds(g))
      case Err(e) => Err(e)
      case Ok(rs) => Ok(Flatten(rs))
  }

  /** An instance contributes an address when its first network interface has
      a private address. */
  predicate HasFirstNicIp(ins: Instance) {
    |ins.networkInterfaces| > 0 && ins.networkInterfaces[0].privateIpAddress.Some?
  }

  function FirstNicIp(ins: Instance): string
    requires HasFirstNicIp(ins)
  {
    ins.networkInterfaces[0].privateIpAddress.value
  }

  /** The first-NIC private address of each instance that has one, in order;
      at most one address per instance. */
  function FirstNicIps(xs: seq<Instance>): (r: seq<string>)
    ensures |r| <= |xs|
  {
    if xs == [] then []
    else (if HasFirstNicIp(xs[0]) then [FirstNicIp(xs[0])] else []) + FirstNicIps(xs[1..])
  }

  lemma {:induction false} FirstNicIpsAppend(a: seq<Instance>, b: seq<Instance>)
    ensures FirstNicIps(a + b) == FirstNicIps(a) + FirstNicIps(b)
  {
    if a != [] {
      assert (a + b)[0] == a[0];
      assert (a + b)[1..] == a[1..] + b;
      FirstNicIpsAppend(a[1..], b);
    } else {
      assert a + b == b;
    }
  }

  /** An address is listed exactly when some instance has it on its first NIC. */
  lemma {:induction false} FirstNicIpsMembership(xs: seq<Instance>, ip: string)
    ensures ip in FirstNicIps(xs) <==>
              exists k :: 0 <= k < |xs| && HasFirstNicIp(xs[k]) && FirstNicIp(xs[k]) == ip
  {
    if xs != [] {
      FirstNicIpsMembership(xs[1..], ip);
      assert forall k :: 1 <= k < |xs| ==> xs[k] == xs[1..][k - 1];
      if ip in FirstNicIps(xs[1..]) {
        var k :| 0 <= k < |xs[1..]| && HasFirstNicIp(xs[1..][k]) && FirstNicIp(xs[1..][k]) == ip;
        assert HasFirstNicIp(xs[k + 1]) && FirstNicIp(xs[k + 1]) == ip;
      }
    }
  }

  /** When every instance has a first-NIC address, nothing is skipped and the
      addresses come in instance order. */
  lemma {:induction false} FirstNicIpsNoneSkipped(xs: seq<Instance>)
    requires forall k :: 0 <= k < |xs| ==> HasFirstNicIp(xs[k])
    ensures |FirstNicIps(xs)| == |xs|
    ensures forall k :: 0 <= k < |xs| ==> FirstNicIps(xs)[k] == FirstNicIp(xs[k])
  {
    if xs != [] {
      FirstNicIpsNoneSkipped(xs[1..]);
    }
  }

  /** GetPrivateIPsForScalingGroup. */
  function PrivateIPs(svc: AwsServices, name: string): (r: Result<seq<string>, ProviderError>)
    ensures r.Ok? ==> GetAutoscalingGroup(svc, name).Ok? && GetAutoscalingGroup(svc, name).value.Some?
  {
    match GetAutoscalingGroup(svc, name)
    case Err(e) => Err(e)
    case Ok(None) => Err(GroupNotFound(name))
    case Ok(Some(g)) =>
      match InstancesOf(svc, g)
      case Err(e) => Err(e)
      case Ok(instances) => Ok(FirstNicIps(instances))
  }

  /** The error paths of GetPrivateIPsForScalingGroup: a failed lookup is passed
      through, a missing group is reported as such, and a failed
      DescribeInstances is passed through. */
  lemma PrivateIPsErrors(svc: AwsServices, name: string)
    ensures svc.describeAutoScalingGroups(name).Err? ==>
              PrivateIPs(svc, name) == Err(svc.describeAutoScalingGroups(name).error)
    ensures svc.describeAutoScalingGroups(name).Ok? && |svc.describeAutoScalingGroups(name).value| != 1 ==>
              PrivateIPs(svc, name) == Err(GroupNotFound(name))
    ensures var resp := svc.describeAutoScalingGroups(name);
            resp.Ok? && |resp.value| == 1 && |resp.value[0].instances| > 0 &&
            svc.describeInstances(GroupInstanceIds(resp.value[0])).Err? ==>
              PrivateIPs(svc, name) == Err(svc.describeInstances(GroupInstanceIds(resp.value[0])).error)
  {
  }

  /** On success: an empty list for a group without instances (no
      DescribeInstances response is consulted), else the first-NIC addresses of
      the concatenated reservations, at most one per instance. */
  lemma PrivateIPsSuccess(svc: AwsServices, name: string)
    requires svc.describeAutoScalingGroups(name).Ok? && |svc.describeAutoScalingGroups(name).value| == 1
    ensures var g := svc.describeAutoScalingGroups(name).value[0];
            |g.instances| == 0 ==> PrivateIPs(svc, name) == Ok([])
    ensures var g := svc.describeAutoScalingGroups(name).value[0];
            var resp := svc.describeInstances(GroupInstanceIds(g));
            |g.instances| > 0 && resp.Ok? ==>
              && PrivateIPs(svc, name) == Ok(FirstNicIps(Flatten(resp.value)))
              && |PrivateIPs(svc, name).value| <= |Flatten(resp.value)|
  {
  }

  /** ToUpstream maps an `awsUpstream` to the provider-agnostic record. */
  function ToUpstream(u: AwsUpstream): Upstream {
    Upstream(u.name, u.port, u.autoscalingGroup, u.kind)
  }

  /** The list GetUpstreamsConfig returns for a config. */
  function UpstreamsOf(cfg: AwsConfig): (r: seq<Upstream>)
    ensures |r| == |cfg.upstreams|
    ensures forall k :: 0 <= k < |r| ==>
              && r[k].name == cfg.upstreams[k].name
              && r[k].port == cfg.upstreams[k].port
              && r[k].scalingGroup == cfg.upstreams[k].autoscalingGroup
              && r[k].kind == cfg.upstreams[k].kind
    ensures ConfigOk(cfg) ==>
              forall k :: 0 <= k < |r| ==>
                r[k].name != "" && r[k].scalingGroup != "" && r[k].port != 0 && IsValidKind(r[k].kind)
  {
    seq(|cfg.upstreams|, k requires 0 <= k < |cfg.upstreams| => ToUpstream(cfg.upstreams[k]))
  }

  // ---------------------------------------------------------------------------
  // The client object.

  /** AWSClient: `config` is nil until ValidateAndSaveConfig succeeds and
      `services` is nil until Configure succeeds. */
  class AWSClient {
    var config: Option<AwsConfig>
    var services: Option<AwsServices>

    /** A saved config is always one that passed validation. */
    ghost predicate Valid()
      reads this
    {
      config.Some? ==> ConfigOk(config.value)
    }

    /** NewAWSClient. */
    constructor ()
      ensures Valid()
      ensures config == None && services == None
    {
      config := None;
      services := None;
    }

    /** ValidateAndSaveConfig. `loaded` is the outcome of reading the config
        file and unmarshalling it; the file read is the one named by the
        `config_path` flag, and `configPath` itself is not used. The config is
        saved only when reading, parsing and validation all succeed. */
    method ValidateAndSaveConfig(configPath: string, loaded: Result<AwsConfig, ProviderError>)
      returns (err: Option<ProviderError>)
      requires Valid()
      modifies this`config
      ensures Valid()
      ensures loaded.Err? ==> err == Some(loaded.error) && config == old(config)
      ensures loaded.Ok? && ValidateAWSConfig(loaded.value).Some? ==>
                err == Some(InvalidConfig(ValidateAWSConfig(loaded.value).value)) && config == old(config)
      ensures loaded.Ok? && ValidateAWSConfig(loaded.value).None? ==>
                err == None && config == Some(loaded.value)
      ensures err.None? <==> loaded.Ok? && ConfigOk(loaded.value)
    {
      if loaded.Err? {
        return Some(loaded.error);
      }
      var cfg := loaded.value;
      var verr := ValidateAWSConfig(cfg);
      ValidateIff(cfg);
      if verr.Some? {
        return Some(InvalidConfig(verr.value));
      }
      config := Some(cfg);
      err := None;
    }

    /** Configure: opens a session for the saved region; `newSession` stands
        for session.NewSession. The services are set only on success. */
    method Configure(newSession: string -> Result<AwsServices, ProviderError>)
      returns (err: Option<ProviderError>)
      requires config.Some?
      modifies this`services
      ensures newSession(config.value.region).Err? ==>
                err == Some(newSession(config.value.region).error) && services == old(services)
      ensures newSession(config.value.region).Ok? ==>
                err == None && services == Some(newSession(config.value.region).value)
    {
      var session := newSession(config.value.region);
      if session.Err? {
        return Some(session.error);
      }
      services := Some(session.value);
      err := None;
    }

    /** GetSyncIntervalInSeconds: the saved interval, which validation made non-zero. */
    function GetSyncIntervalInSeconds(): (d: int)
      reads this
      requires Valid() && config.Some?
      ensures d == config.value.syncIntervalInSeconds
      ensures d != 0
    {
      config.value.syncIntervalInSeconds
    }

    /** GetAPIEndpoint: the saved endpoint, which validation made non-empty. */
    function GetAPIEndpoint(): (endpoint: string)
      reads this
      requires Valid() && config.Some?
      ensures endpoint == config.value.apiEndpoint
      ensures endpoint != ""
    {
      config.value.apiEndpoint
    }

    /** GetUpstreamsConfig: one Upstream per configured upstream, same order,
        with ScalingGroup taken from autoscaling_group. */
    method GetUpstreamsConfig() returns (ups: seq<Upstream>)
      requires Valid() && config.Some?
      ensures |ups| == |config.value.upstreams| && |ups| > 0
      ensures forall k :: 0 <= k < |ups| ==>
                var u := config.value.upstreams[k];
                ups[k].name == u.name && ups[k].port == u.port &&
                ups[k].scalingGroup == u.autoscalingGroup && ups[k].kind == u.kind
      ensures forall k :: 0 <= k < |ups| ==>
                ups[k].name != "" && ups[k].scalingGroup != "" && ups[k].port != 0 && IsValidKind(ups[k].kind)
      ensures ups == UpstreamsOf(config.value)
    {
      var src := config.value.upstreams;
      ups := [];
      for i := 0 to |src|
        invariant |ups| == i
        invariant forall k :: 0 <= k < i ==> ups[k] == ToUpstream(src[k])
      {
        ups := ups + [ToUpstream(src[i])];
      }
    }

    /** getInstancesOfAutoscalingGroup: builds the id list in the group's order
        and concatenates the instances of every reservation in the response. */
    method GetInstancesOfAutoscalingGroup(group: AutoScalingGroup)
      returns (r: Result<seq<Instance>, ProviderError>)
      requires services.Some?
      ensures r == InstancesOf(services.value, group)
    {
      var result: seq<Instance> := [];
      if |group.instances| == 0 {
        return Ok(result);
      }
      var ids: seq<Option<string>> := [];
      for i := 0 to |group.instances|
        invariant ids == GroupInstanceIds(group)[..i]
      {
        ids := ids + [group.instances[i].instanceId];
      }
      assert ids == GroupInstanceIds(group);
      var resp := services.value.describeInstances(ids);
      if resp.Err? {
        return Err(resp.error);
      }
      var reservations := resp.value;
      for i := 0 to |reservations|
        invariant result == Flatten(reservations[..i])
      {
        FlattenAppend(reservations[..i], [reservations[i]]);
        assert reservations[..i + 1] == reservations[..i] + [reservations[i]];
        result := result + reservations[i].instances;
      }
      assert reservations[..|reservations|] == reservations;
      r := Ok(result);
    }

    /** GetPrivateIPsForScalingGroup. */
    method GetPrivateIPsForScalingGroup(name: string) returns (r: Result<seq<string>, ProviderError>)
      requires services.Some?
      ensures r == PrivateIPs(services.value, name)
    {
      var lookup := GetAutoscalingGroup(services.value, name);
      if lookup.Err? {
        return Err(lookup.error);
      }
      if lookup.value.None? {
        return Err(GroupNotFound(name));
      }
      var instances := GetInstancesOfAutoscalingGroup(lookup.value.value);
      if instances.Err? {
        return Err(instances.error);
      }
      var xs := instances.value;
      var result: seq<string> := [];
      for i := 0 to |xs|
        invariant result == FirstNicIps(xs[..i])
      {
        FirstNicIpsAppend(xs[..i], [xs[i]]);
        assert xs[..i + 1] == xs[..i] + [xs[i]];
        if |xs[i].networkInterfaces| > 0 && xs[i].networkInterfaces[0].privateIpAddress.Some? {
          result := result + [xs[i].networkInterfaces[0].privateIpAddress.value];
        }
      }
      assert xs[..|xs|] == xs;
      r := Ok(result);
    }
  }
}

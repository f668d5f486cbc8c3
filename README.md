# nginx-asg-sync, modelled in Dafny

nginx-asg-sync is a small daemon. It reads a list of upstreams from a YAML
file and asks AWS which private IP addresses belong to each Auto Scaling
group behind them. It then pushes the resulting `ip:port` server lists to
the NGINX Plus API. This project models the daemon's decision logic and
proves properties of it:

- `config.dfy` (module `Config`): the `awsConfig` and `awsUpstream` records
  and `validateAWSConfig`. Validation is a chain of mandatory-field checks
  where the first failure wins: region, api_endpoint,
  sync_interval_in_seconds, a non-empty upstream list, then for each
  upstream in list order its name, autoscaling_group, port and kind.
- `provider.dfy` (module `Provider`): the provider-agnostic `Upstream`
  record and `validateCloudProvider`. `Upstream` has exactly the fields
  Name, Port, ScalingGroup and Kind, and it is the only shape the provider
  hands to the loop.
- `aws.dfy` (module `Aws`): the `AWSClient` object and the SDK responses it
  reads, written as datatypes:
  - `config` is nil until `ValidateAndSaveConfig` succeeds.
  - `services` are the two SDK clients, nil until `Configure` succeeds.
  - The exactly-one-group rule, the wrapping `CheckIfScalingGroupExists`.
  - Building the instance-id list, flattening reservations, and keeping
    the first-NIC private addresses.
  - Mapping config upstreams to `Upstream`, and the accessors.
- `sync.dfy` (module `Sync`): `main`:
  - the `cloud_provider` gate;
  - the startup sequence that ends in `os.Exit(10)`;
  - preflight over the upstreams;
  - one tick of the reconciliation loop: resolve the addresses, build
    `ip:port` servers with MaxFails 1, submit them to the HTTP or stream
    API chosen by the upstream's kind, skip the upstream on error, and log
    only when servers were added or removed.

  The NGINX Plus client is the datatype `NginxApi` of four functions from
  request to response. The requests the daemon sends it are returned as a
  trace of `NginxCall`s. Log lines are the tagged datatype `LogEvent`.
- `decimal.dfy` (module `Decimal`): `%v` formatting of the port. It is
  proved to read back to the same integer.
- `wrappers.dfy`: `Option` and `Result`.

The loops of `aws.go` and `main.go` change state step by step. They are
methods with loop invariants, and each is proved equal to a specification
function; the properties are lemmas about those functions:

| method | specification function |
|---|---|
| `GetUpstreamsConfig` | `UpstreamsOf` |
| `GetInstancesOfAutoscalingGroup` | `InstancesOf` |
| `GetPrivateIPsForScalingGroup` | `PrivateIPs` |
| `RunPreflight` | `PreflightRun` |
| `PreflightUpstream` (one preflight iteration) | `PreflightOne` |
| `Tick` | `TickRun` |
| `SyncUpstream` (one sync iteration) | `UpstreamStep` |

The `for` loop of `validateAWSConfig` (cmd/sync/config.go:44-57) only
computes a verdict, so it is the recursive function
`Config.ValidateUpstreams`. The state changes of `AWSClient`
(`ValidateAndSaveConfig`, `Configure`) and the startup sequence `Sync.Run`
are specified by their postconditions directly.

Points where the code behaves in a way a reader may not expect:

- **Scaling-group check at preflight.** `main` logs a missing scaling
  group as a warning and goes on (cmd/sync/main.go:89-90), so a missing
  group is meant to be harmless. But `CheckIfScalingGroupExists` always
  returns a non-nil error, and `main` exits on any error. So as written,
  preflight exits with code 10 at the first upstream. Validation requires
  at least one upstream, so `Sync.Run` is proved to end in exit code 10 on
  every input. See "## Findings".
- **Port and sync interval.** The code rejects only zero, so negative
  values pass (`Config.IntervalOnlyZeroRejected`,
  `Config.PortOnlyZeroRejected`).
- **`configPath` is ignored.** `ValidateAndSaveConfig` reads the file named
  by the global `config_path` flag, not its `configPath` argument. The
  model keeps the unused parameter.

## Model

| member | source | states |
|---|---|---|
| `Config.CheckUpstream` | cmd/sync/config.go:45-56 | a passing upstream satisfies `UpstreamOk`, and a failure is a per-upstream error; the converse and the order of the checks are `CheckUpstreamPassesIff` and `CheckUpstreamPrecedence` |
| `Config.ValidateUpstreams` | cmd/sync/config.go:44-57 | any error it returns is a per-upstream error; which one is fixed by `ValidateUpstreamsNoneIff`, `ValidateUpstreamsReportsFirst` and `ValidateUpstreamsErrorHasWitness` |
| `Config.ValidateAWSConfig` | cmd/sync/config.go:29-60 | nil implies region, api_endpoint and interval are set and the upstream list is non-empty; characterised fully by `ValidateIff`, `TopLevelPrecedence` and `UpstreamErrorsComeLast` |
| `Config.CheckUpstreamPassesIff` | cmd/sync/config.go:45-56 | an upstream passes iff name and autoscaling_group are non-empty, port is non-zero and kind is "http" or "stream"; a failure is a per-upstream error |
| `Config.CheckUpstreamPrecedence` | cmd/sync/config.go:45-56 | the per-upstream checks run in the order name, autoscaling_group, port (only 0 rejected), kind, each reached only when the earlier ones pass |
| `Config.KindAcceptedIff` | cmd/sync/config.go:54-56 | with the other fields fine, the kind is accepted iff it is exactly "http" or "stream"; "" and "tcp" are rejected |
| `Config.ValidateUpstreamsNoneIff` | cmd/sync/config.go:44-59 | the upstream loop returns nil iff every upstream passes its four checks |
| `Config.ValidateUpstreamsReportsFirst` | cmd/sync/config.go:44-57 | the loop's error is the error of the first failing upstream in list order, whatever follows it |
| `Config.ValidateUpstreamsErrorHasWitness` | cmd/sync/config.go:44-57 | every error of the loop comes from some upstream whose predecessors all passed |
| `Config.ValidateIff` | cmd/sync/config.go:29-60 | validation returns nil iff the three top-level fields pass, the list is non-empty and every upstream passes |
| `Config.TopLevelPrecedence` | cmd/sync/config.go:30-42 | an empty region is rejected first; then an empty api_endpoint; then a zero interval; then an empty upstream list |
| `Config.UpstreamErrorsComeLast` | cmd/sync/config.go:29-57 | an upstream error is returned only when region, api_endpoint and interval pass and the list is non-empty, and it is the first failing upstream's |
| `Config.IntervalOnlyZeroRejected` | cmd/sync/config.go:36-38 | replacing a non-zero sync interval by any other non-zero value, negative included, leaves the verdict unchanged, for every config |
| `Config.PortOnlyZeroRejected` | cmd/sync/config.go:51-53 | replacing the non-zero port of any one upstream by any other non-zero value, negative included, leaves the verdict unchanged |
| `Config.KindMessageNamesRejectedKind` | cmd/sync/config.go:27 | as written, the kind error message names "tcp", a kind the check rejects even when every other field is fine |
| `Config.KindMessageCorrectedMatchesCheck` | cmd/sync/config.go:27 | the corrected message names exactly the kinds that pass the check, "http" and "stream" |
| `Config.BlankingAnyFieldFails` | cmd/sync/config_test.go:43-90 | blanking or zeroing any one mandatory field of a valid config, or any field of any one upstream, makes validation fail |
| `Config.SampleConfigIsValid` | cmd/sync/config_test.go:24-41 | the test's valid config validates to nil, and without upstreams it is rejected for having none |
| `Provider.ValidateCloudProvider` | cmd/sync/provider.go:25-31 | true exactly for the string "AWS"; as a function it depends only on its argument |
| `Provider.OnlyExactAwsAccepted` | cmd/sync/provider.go:26-30 | "AWS" is accepted; "", "aws" and "AWS " are rejected (exact, case-sensitive lookup) |
| `Aws.GetAutoscalingGroup` | cmd/sync/aws.go:126-143 | a found group is the single group of the response; characterised fully by `ExactlyOneGroupExists` |
| `Aws.ExactlyOneGroupExists` | cmd/sync/aws.go:126-143 | an API error is returned as is; otherwise the group is found iff the response lists exactly one group, and it is that group; 0 or 2+ groups give "not found" with no error |
| `Aws.CheckIfScalingGroupExists` | cmd/sync/aws.go:70-73 | the exists flag is that of the lookup, and the returned error is never nil, even when the lookup succeeded |
| `Aws.CheckIfScalingGroupExistsCorrected` | cmd/sync/aws.go:70-73 | corrected variant: the error is nil iff the lookup had no error; exists iff the response lists exactly one group |
| `Aws.CheckReportsErrorOnSuccess` | cmd/sync/aws.go:70-73 | for a successful lookup that finds the group, the as-written check returns (true, error) and the corrected one (true, nil) |
| `Aws.GroupInstanceIds` | cmd/sync/aws.go:152-155 | the request carries one id per group instance, in the group's order |
| `Aws.Flatten` | cmd/sync/aws.go:164-166 | every instance of every reservation is in the result; `FlattenAppend` and `FlattenMembership` give order and the converse |
| `Aws.FlattenAppend` | cmd/sync/aws.go:164-166 | flattening reservations distributes over concatenation, so reservation order is kept |
| `Aws.FlattenMembership` | cmd/sync/aws.go:164-166 | an instance is in the result iff some reservation of the response holds it |
| `Aws.FirstNicIpsAppend` | cmd/sync/aws.go:106-112 | the address filter distributes over concatenation, so instance order is kept |
| `Aws.FirstNicIps` | cmd/sync/aws.go:106-112 | the filter yields at most one address per instance; which ones is `FirstNicIpsMembership`, their order `FirstNicIpsAppend` |
| `Aws.FirstNicIpsMembership` | cmd/sync/aws.go:106-112 | an address is listed iff some instance has at least one NIC and that address on its first NIC |
| `Aws.FirstNicIpsNoneSkipped` | cmd/sync/aws.go:106-112 | when every instance has a first-NIC address, the result is exactly those addresses in instance order |
| `Aws.InstancesOf` | cmd/sync/aws.go:145-169 | an error can only come from a DescribeInstances request for a group with instances, and is that request's error |
| `Aws.PrivateIPs` | cmd/sync/aws.go:91-114 | addresses are returned only for a group the lookup found; `PrivateIPsErrors` and `PrivateIPsSuccess` give every path |
| `Aws.UpstreamsOf` | cmd/sync/aws.go:76-88 | one upstream per config entry, in order, with Name, Port and Kind copied and ScalingGroup taken from autoscaling_group; for a valid config each has a name, a scaling group, a non-zero port and a valid kind |
| `Aws.PrivateIPsErrors` | cmd/sync/aws.go:92-104 | a failed group lookup's error is returned; a missing group gives a "group not found" error; a failed DescribeInstances is returned |
| `Aws.PrivateIPsSuccess` | cmd/sync/aws.go:91-113 | a group with no instances gives an empty list without using DescribeInstances; otherwise the first-NIC addresses of the concatenated reservations, at most one per instance |
| `Aws.AWSClient.constructor` | cmd/sync/aws.go:26-28 | a new client has neither config nor services and satisfies the client invariant |
| `Aws.AWSClient.ValidateAndSaveConfig` | cmd/sync/aws.go:48-67 | a read/parse error or a validation error is returned and the saved config is unchanged; otherwise the config is saved and nil returned; a saved config always satisfies `ConfigOk` |
| `Aws.AWSClient.Configure` | cmd/sync/aws.go:31-45 | the session is opened for the saved region; on error it is returned and services are unchanged, on success services are set |
| `Aws.AWSClient.GetSyncIntervalInSeconds` | cmd/sync/aws.go:117-119 | returns the saved interval, which is non-zero |
| `Aws.AWSClient.GetAPIEndpoint` | cmd/sync/aws.go:122-124 | returns the saved endpoint, which is non-empty |
| `Aws.AWSClient.GetUpstreamsConfig` | cmd/sync/aws.go:76-88 | same length and order as the config's upstreams, Name, Port and Kind copied, ScalingGroup = autoscaling_group; non-empty and every entry valid |
| `Aws.AWSClient.GetInstancesOfAutoscalingGroup` | cmd/sync/aws.go:145-169 | equals `InstancesOf`: empty for a group without instances, else the DescribeInstances error or the concatenated reservations for the ids in order |
| `Aws.AWSClient.GetPrivateIPsForScalingGroup` | cmd/sync/aws.go:91-114 | equals `PrivateIPs`: the error paths and filtered addresses characterised by the two `PrivateIPs` lemmas |
| `Decimal.NatToDecimal` | cmd/sync/main.go:108 | the port's decimal rendering is non-empty, digits only, with no leading zero |
| `Decimal.IntToDecimal` | cmd/sync/main.go:108 | a negative port is rendered with a leading minus sign before digits |
| `Decimal.IntToDecimalRoundTrip` | cmd/sync/main.go:108 | reading the rendering back gives the same integer, so different ports give different addresses |
| `Sync.ApiFor` | cmd/sync/main.go:74-78 | the HTTP API is chosen iff the kind is exactly "http"; every other kind uses the stream API |
| `Sync.CloudProviderGate` | cmd/sync/main.go:36-44 | startup goes on iff the flag is "AWS"; an empty flag logs "required" and an unknown one "invalid", both exiting before any config is read |
| `Sync.PreflightOne` | cmd/sync/main.go:74-91 | the first NGINX request is for this upstream in the API its kind selects; preflight goes on past it iff both of its checks return no error and the rest goes on |
| `Sync.PreflightRun` | cmd/sync/main.go:73-92 | at most one NGINX request per upstream, and any exit uses code 10; `PreflightProceedsIff` and `PreflightLogIsFatal` give the log |
| `Sync.PreflightUpstream` | cmd/sync/main.go:74-91 | for one upstream, agrees with `PreflightOne`: it exits with code 10 exactly when the NGINX check or the scaling-group check reports an error, and otherwise logs the missing-group warning and leaves the rest of preflight to run |
| `Sync.RunPreflight` | cmd/sync/main.go:73-92 | equals `PreflightRun` for the saved upstreams and the provider's scaling-group check |
| `Sync.PreflightCallsFollowKind` | cmd/sync/main.go:73-83 | preflight asks NGINX about the upstreams in order, each in the API its kind selects, at most once each; an exit uses code 10 |
| `Sync.PreflightProceedsIff` | cmd/sync/main.go:73-92 | preflight goes on iff every NGINX check and every scaling-group check returned no error; then every upstream was checked and the log is exactly one missing-group warning per upstream whose group was not found, in upstream order (a group shared by two such upstreams is warned about twice) |
| `Sync.PreflightLogIsFatal` | cmd/sync/main.go:73-88 | when preflight exits, it stopped at the first upstream k whose checks failed: every earlier upstream passed both checks, k + 1 NGINX requests were made, and the last log line carries upstream k's NGINX error, or failing that its provider error |
| `Sync.AsWrittenPreflightAlwaysExits` | cmd/sync/main.go:85-88 | with the provider as written, preflight exits with code 10 at the first upstream after one NGINX request |
| `Sync.CorrectedPreflightProceeds` | cmd/sync/main.go:85-91 | with the corrected check, preflight goes on whenever NGINX knows every upstream and every group lookup got an answer, found or not |
| `Sync.ServerAddress` | cmd/sync/main.go:108 | the address starts with the IP followed by a colon; `ServerAddressEncodesPort` reads the port back |
| `Sync.DesiredServers` | cmd/sync/main.go:106-113 | one server per address, each with MaxFails 1; `BuildServers` and `TwoInstanceExample` give the addresses |
| `Sync.BuildServers` | cmd/sync/main.go:106-113 | one server per resolved address, in order, with address ip + ":" + decimal(port) and MaxFails 1 |
| `Sync.ServerAddressEncodesPort` | cmd/sync/main.go:108 | the address is the IP, a colon, then the port's rendering, which reads back to the port |
| `Sync.TwoInstanceExample` | cmd/sync/main.go:106-113 | addresses 10.0.0.1 and 10.0.0.2 with port 80 give servers "10.0.0.1:80" and "10.0.0.2:80" with MaxFails 1 |
| `Sync.UpstreamStep` | cmd/sync/main.go:99-143 | at most one log line; no submission iff the resolution failed, otherwise exactly one; `StepOnResolveFailure` and `StepOnResolved` give the lines |
| `Sync.TickRun` | cmd/sync/main.go:98-145 | at most one log line and one submission per upstream; `TickAppend`, `TickDecomposes` and `TickSubmissions` give the rest |
| `Sync.SyncUpstream` | cmd/sync/main.go:99-143 | for one upstream, equals `UpstreamStep` applied to the client's address resolution for its scaling group |
| `Sync.Tick` | cmd/sync/main.go:98-145 | equals `TickRun` over the saved upstreams, with the client's address resolution and the NGINX responses |
| `Sync.TickAppend` | cmd/sync/main.go:98-145 | a tick over two lists of upstreams is the tick over the first followed by the tick over the second |
| `Sync.TickDecomposes` | cmd/sync/main.go:98-145 | what a tick does for upstream i depends only on that upstream; the upstreams before and after it are processed as if it were absent, so an error skips only that upstream |
| `Sync.StepOnResolveFailure` | cmd/sync/main.go:99-103 | a failed resolution logs exactly one error and submits nothing for that upstream |
| `Sync.StepOnResolved` | cmd/sync/main.go:105-143 | a resolved upstream gets one submission in the API its kind selects, one server per address with MaxFails 1; a failed submission logs one error; a successful one logs "updated" iff added or removed is non-empty |
| `Sync.TickSubmissions` | cmd/sync/main.go:98-145 | a tick submits at most one list per upstream; a list is submitted iff it is the desired list, in the kind's API, of an upstream whose addresses resolved |
| `Sync.Run` | cmd/sync/main.go:24-92 | the whole log of every path: an empty or unknown cloud_provider logs only that; otherwise the version line comes first, followed by exactly one line carrying the load or validation error, the session error or the NGINX client error, whichever step failed first; when all three succeed, it is followed by the log of `PreflightRun` over the config's upstreams with the as-written check, whose last line is the fatal reason; on every input as written, the exit code is 10 |

## Findings

| source | as written | input that shows it | evidently intended | confidence | as-written member | corrected member |
|---|---|---|---|---|---|---|
| cmd/sync/aws.go:72 | `CheckIfScalingGroupExists` wraps the lookup's error with `fmt.Errorf` even when that error is nil, so it never returns a nil error; `main` treats it as fatal (cmd/sync/main.go:85-88) | a DescribeAutoScalingGroups response listing exactly one group gives (true, non-nil error), so the daemon exits with code 10 at the first upstream of every valid config | return a nil error when the lookup succeeded, so a missing group is only a warning and preflight goes on | high (not executed) | `Aws.CheckIfScalingGroupExists`, with `Sync.AsWrittenPreflightAlwaysExits` and `Sync.Run` | `Aws.CheckIfScalingGroupExistsCorrected`, with `Sync.CorrectedPreflightProceeds` |
| cmd/sync/config.go:27 | the message for a rejected kind says the kind must be "http or tcp", but the check at cmd/sync/config.go:54 accepts only "http" and "stream" | an upstream with kind "tcp", as the message advises, is rejected with the same message | name "http or stream" in the message | high (not executed) | `Config.KindMessageNamesRejectedKind` (over `Config.KindMessageKinds`) | `Config.KindMessageCorrectedMatchesCheck` (over `Config.KindMessageKindsCorrected`) |

`Sync.RunPreflight` takes the provider's scaling-group check as a
parameter, so the same preflight method runs with either check. `Sync.Run`
follows the code as written and passes the as-written check.

## Left out

- Flag parsing and log-file setup (cmd/sync/main.go:17-34) are process
  environment. The flag values are inputs of `Sync.Run`, and `os.Exit(10)`
  is its `Exited(10)` result.
- Reading the file and unmarshalling the YAML (cmd/sync/aws.go:49-58) are
  foreign library code. Their outcome is the input `loaded` of
  `ValidateAndSaveConfig`.
- The AWS session, the HTTP client with its ten-second timeout, and the
  real `DescribeAutoScalingGroups` and `DescribeInstances` calls are SDK
  code. `Configure`'s session constructor is an input function applied to
  the region. The two services are functions from request to response,
  fixed for the client's lifetime. Tick and preflight are proved for every
  such function, so responses that change between ticks are covered one
  tick at a time.
- The NGINX Plus client (`NewNginxClient`, the upstream-existence checks,
  `UpdateHTTPServers`, `UpdateStreamServers`) is an external library, and
  so is its own added/removed diffing. It is modelled as functions that
  return an error or the added and removed servers. Like the AWS services,
  these functions are fixed for the whole tick. The real answer depends on
  the NGINX state, which earlier updates of the same tick change: two
  config entries with the same name and kind, for example, would get
  different added/removed answers. The model does not capture that.
- The endless sync loop, the SIGTERM channel and the `select` on
  `time.After` (cmd/sync/main.go:94-97, 147-152) are timer and signal
  concurrency. `Sync.Run` stops where the loop would begin, and `Sync.Tick`
  models one pass of it. Shutdown latency and "same desired list on two
  unchanged ticks" are therefore not stated; the latter holds because
  `TickRun` is a function of its inputs.
- The `CloudProvider` interface (cmd/sync/provider.go:5-15) is not a
  Dafny trait, because `AWSClient` is its only implementation; `AWSClient` is
  used directly. The one interface method
  whose variant matters, `CheckIfScalingGroupExists`, is passed to
  `Sync.RunPreflight` as a function.
- The texts of log and error messages are not modelled, except for the
  kinds the kind error message names (`Config.KindMessageKinds`). Each message is a
  constructor of `LogEvent`, `ConfigError` or `ProviderError` carrying the
  values the message prints.
- Go's 64-bit `int` and `time.Duration` are unbounded integers here, and
  values beyond 64 bits cannot come out of the YAML parser. The port is
  only compared with zero and printed. The interval is compared with zero
  and, in the sleep between ticks, multiplied by `time.Second`
  (cmd/sync/main.go:148); that conversion and its possible 64-bit overflow
  are not modelled.
- Nil entries inside SDK lists, such as a nil `*ec2.Instance` or a nil
  group, are not modelled. The nil `*string` fields the code reads (instance
  ids, private addresses) are `Option`s.

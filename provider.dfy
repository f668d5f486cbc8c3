/** The provider-agnostic upstream record and the check on the
    `cloud_provider` flag (cmd/sync/provider.go). */
module Provider {

  /** The shape every cloud provider hands to the sync loop. */
  datatype Upstream = Upstream(
    name: string,
    port: int,
    scalingGroup: string,
    kind: string)

  /** The providers the daemon knows; a missing key reads as false. */
  const SupportedProviders: map<string, bool> := map["AWS" := true]

  /** validateCloudProvider: an exact, case-sensitive lookup. */
  function ValidateCloudProvider(provider: string): (ok: bool)
    ensures ok <==> provider == "AWS"
  {
    provider in SupportedProviders && SupportedProviders[provider]
  }

  /** The empty string and other spellings of the name are rejected. */
  lemma OnlyExactAwsAccepted()
    ensures ValidateCloudProvider("AWS")
    ensures !ValidateCloudProvider("")
    ensures !ValidateCloudProvider("aws")
    ensures !ValidateCloudProvider("AWS ")
  {
  }
}

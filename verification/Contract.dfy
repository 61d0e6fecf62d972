/** The vocabulary shared by the kernel and its codecs: failures, names and authorities. */
module Contract {
  import opened Wrappers

  /** `Code` of crates/phenix-contract/src/lib.rs. */
  datatype Code =
    | DescriptorInvalid | ArtifactInvalid | AbiIncompatible | MissingBinding | AmbiguousBinding
    | SchemaRejected | Denied | PluginFailed | InfrastructureFailure | ReentrancyRejected
    | ScopeRejected | Cancelled

  /** A failure is its code; the message text carries no control flow. */
  datatype Failure = Failure(code: Code)

  /** Host authority: what may be called and what may be touched. */
  datatype Authority = Authority(operations: set<string>, resources: set<string>) {
    /** `Authority::intersect`: attenuation by a requested restriction. */
    function Intersect(other: Authority): (r: Authority)
    {
      Authority(operations * other.operations, resources * other.resources)
    }

    /** At most as strong as `other`. */
    predicate Within(other: Authority)
    {
      operations <= other.operations && resources <= other.resources
    }
  }

  /** `ScopedRequest`: the attenuation a caller asks for. */
  datatype ScopedRequest = ScopedRequest(authority: Authority, resource: Option<string>)
}

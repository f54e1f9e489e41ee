/**
  HornetQ's `ClusterConnectionConfiguration` as an immutable value. Its two constructors
  (discovery group or static connector list) become the two variants of `Topology`.
 */
module HornetQConfig {
  import opened Wrappers
  import opened Dmr

  /** How a cluster connection finds its peers. */
  datatype Topology =
    /** An explicit connector list (absent when none was configured) and the direct-only flag. */
    | Static(connectors: Option<seq<string>>, allowDirectOnly: bool)
    /** A named discovery group. */
    | Discovery(groupName: string)

  /** One cluster connection of the broker configuration, field for field as HornetQ takes it. */
  datatype ClusterConnectionConfiguration = ClusterConnectionConfiguration(
    name: string,
    address: string,
    connectorName: string,
    minLargeMessageSize: Int32,
    clientFailureCheckPeriod: Int64,
    connectionTtl: Int64,
    retryInterval: Int64,
    retryIntervalMultiplier: Double,
    maxRetryInterval: Int64,
    reconnectAttempts: Int32,
    callTimeout: Int64,
    duplicateDetection: bool,
    forwardWhenNoConsumers: bool,
    maxHops: Int32,
    confirmationWindowSize: Int32,
    topology: Topology)
}

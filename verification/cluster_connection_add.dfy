/**
  The handler that adds a cluster connection to a messaging server: admission of the add
  operation into the resource model, the runtime (reload) decision, and the conversion of
  resolved models into HornetQ cluster-connection configurations.
 */
module ClusterConnectionAdd {
  import opened Wrappers
  import opened Dmr
  import opened HornetQConfig

  /**
    `AttributeDefinition.validateAndSet` for one attribute: given the operation's raw value
    for the attribute, the value to store in the model, or a refusal.
   */
  type Validator = (Attr, Value) -> Result<Value, Error>

  /**
    `AttributeDefinition.resolveModelAttribute` in a fixed operation context: given the
    model's raw value for the attribute, the resolved value (expressions expanded,
    defaults applied), or a refusal.
   */
  type Resolver = (Attr, Value) -> Result<Value, Error>

  // ---------------------------------------------------------------------------------------
  // populateModel

  /** The attribute the loop of `populateModel` passes over for the chosen strategy. */
  predicate Skipped(a: Attr, hasStatic: bool, hasDiscGroup: bool) {
    || (hasDiscGroup && a == ClusterConnectionConnectors)
    || (hasStatic && a == DiscoveryGroupName)
  }

  /** Attributes of `table` that the loop validates and sets. */
  predicate Written(a: Attr, table: seq<Attr>, hasStatic: bool, hasDiscGroup: bool) {
    a in table && !Skipped(a, hasStatic, hasDiscGroup)
  }

  /**
    The loop of `populateModel` from some point of the attribute table on: each attribute
    that is not skipped is validated against the operation and stored into `model`; the
    first refusal aborts.
   */
  function ValidateAndSetAll(op: Store, table: seq<Attr>, hasStatic: bool, hasDiscGroup: bool,
                             validate: Validator, model: Store): (r: Result<Store, Error>)
    ensures r.Success? <==>
      forall a :: Written(a, table, hasStatic, hasDiscGroup) ==> validate(a, Get(op, a)).Success?
    ensures r.Success? ==>
      forall k :: k in r.value <==> k in model || Written(k, table, hasStatic, hasDiscGroup)
    ensures r.Success? ==>
      forall a :: Written(a, table, hasStatic, hasDiscGroup) ==> r.value[a] == validate(a, Get(op, a)).value
    ensures r.Success? ==>
      forall k :: k in model && !Written(k, table, hasStatic, hasDiscGroup) ==> r.value[k] == model[k]
    decreases |table|
  {
    if table == [] then
      Success(model)
    else if Skipped(table[0], hasStatic, hasDiscGroup) then
      ValidateAndSetAll(op, table[1..], hasStatic, hasDiscGroup, validate, model)
    else
      var v :- validate(table[0], Get(op, table[0]));
      ValidateAndSetAll(op, table[1..], hasStatic, hasDiscGroup, validate, model[table[0] := v])
  }

  /**
    Attribute `i` of `table` is the first one the loop validates that is refused, with `e`.
   */
  ghost predicate FirstRefusal(op: Store, table: seq<Attr>, hasStatic: bool, hasDiscGroup: bool,
                               validate: Validator, i: int, e: Error)
  {
    && 0 <= i < |table|
    && !Skipped(table[i], hasStatic, hasDiscGroup)
    && validate(table[i], Get(op, table[i])) == Failure(e)
    && forall j :: 0 <= j < i && !Skipped(table[j], hasStatic, hasDiscGroup) ==>
         validate(table[j], Get(op, table[j])).Success?
  }

  /** When the loop fails, its error is that of the first attribute refused, in table order. */
  lemma {:induction false} ValidateAndSetAllFailsAtFirstRefusal(
    op: Store, table: seq<Attr>, hasStatic: bool, hasDiscGroup: bool, validate: Validator, model: Store)
    requires ValidateAndSetAll(op, table, hasStatic, hasDiscGroup, validate, model).Failure?
    ensures exists i :: FirstRefusal(op, table, hasStatic, hasDiscGroup, validate, i,
                                     ValidateAndSetAll(op, table, hasStatic, hasDiscGroup, validate, model).error)
    decreases |table|
  {
    var e := ValidateAndSetAll(op, table, hasStatic, hasDiscGroup, validate, model).error;
    if Skipped(table[0], hasStatic, hasDiscGroup) || validate(table[0], Get(op, table[0])).Success? {
      var model' := if Skipped(table[0], hasStatic, hasDiscGroup) then model
                    else model[table[0] := validate(table[0], Get(op, table[0])).value];
      ValidateAndSetAllFailsAtFirstRefusal(op, table[1..], hasStatic, hasDiscGroup, validate, model');
      var i :| FirstRefusal(op, table[1..], hasStatic, hasDiscGroup, validate, i, e);
      assert table[i + 1] == table[1..][i];
      forall j | 0 <= j < i + 1 && !Skipped(table[j], hasStatic, hasDiscGroup)
        ensures validate(table[j], Get(op, table[j])).Success?
      {
        if j > 0 {
          assert table[j] == table[1..][j - 1];
        }
      }
      assert FirstRefusal(op, table, hasStatic, hasDiscGroup, validate, i + 1, e);
    } else {
      assert FirstRefusal(op, table, hasStatic, hasDiscGroup, validate, 0, e);
    }
  }

  /** The attributes of `table` that `populateModel` validates and sets for operation `op`. */
  predicate Admitted(op: Store, table: seq<Attr>, a: Attr) {
    Written(a, table, HasDefined(op, ClusterConnectionConnectors), HasDefined(op, DiscoveryGroupName))
  }

  /**
    `populateModel(operation, model)`: the model is first emptied; an operation naming
    both the cluster-connection connectors and a discovery group is refused; otherwise
    every attribute of `table` (the cluster-connection attribute table) is validated and
    set, except the one belonging to the strategy not chosen.
   */
  function PopulateModel(op: Store, model: Store, table: seq<Attr>, validate: Validator): (r: Result<Store, Error>)
    ensures HasDefined(op, ClusterConnectionConnectors) && HasDefined(op, DiscoveryGroupName) ==>
      r == Failure(MutuallyExclusive(ClusterConnectionConnectors, DiscoveryGroupName))
    ensures !(HasDefined(op, ClusterConnectionConnectors) && HasDefined(op, DiscoveryGroupName)) ==>
      (r.Success? <==> forall a :: Admitted(op, table, a) ==> validate(a, Get(op, a)).Success?)
    ensures r.Success? ==> forall k :: k in r.value <==> Admitted(op, table, k)
    ensures r.Success? && HasDefined(op, DiscoveryGroupName) ==> ClusterConnectionConnectors !in r.value
    ensures r.Success? && HasDefined(op, ClusterConnectionConnectors) ==> DiscoveryGroupName !in r.value
    ensures r.Success? ==>
      forall a :: Admitted(op, table, a) ==> validate(a, Get(op, a)) == Success(r.value[a])
  {
    var hasStatic := HasDefined(op, ClusterConnectionConnectors);
    var hasDiscGroup := HasDefined(op, DiscoveryGroupName);
    if hasStatic && hasDiscGroup then
      Failure(MutuallyExclusive(ClusterConnectionConnectors, DiscoveryGroupName))
    else
      ValidateAndSetAll(op, table, hasStatic, hasDiscGroup, validate, map[])
  }

  // ---------------------------------------------------------------------------------------
  // performRuntime

  /**
    `performRuntime`: given whether the HornetQ service for the operation's server is
    registered and the context's current reload-required flag, the flag afterwards.
   */
  function PerformRuntime(hornetQServiceRegistered: bool, reloadRequired: bool): (r: bool)
    ensures hornetQServiceRegistered ==> r
    ensures !hornetQServiceRegistered ==> r == reloadRequired
  {
    if hornetQServiceRegistered then true else reloadRequired
  }

  // ---------------------------------------------------------------------------------------
  // createClusterConnectionConfiguration and getStaticConnectors

  /** `a.resolveModelAttribute(context, model)`. */
  function Resolve(resolve: Resolver, model: Store, a: Attr): Result<Value, Error> {
    resolve(a, Get(model, a))
  }

  function ReadString(resolve: Resolver, model: Store, a: Attr): Result<string, Error> {
    var v :- Resolve(resolve, model, a);
    AsString(a, v)
  }

  function ReadInt(resolve: Resolver, model: Store, a: Attr): Result<Int32, Error> {
    var v :- Resolve(resolve, model, a);
    AsInt(a, v)
  }

  function ReadLong(resolve: Resolver, model: Store, a: Attr): Result<Int64, Error> {
    var v :- Resolve(resolve, model, a);
    AsLong(a, v)
  }

  function ReadBool(resolve: Resolver, model: Store, a: Attr): Result<bool, Error> {
    var v :- Resolve(resolve, model, a);
    AsBool(a, v)
  }

  function ReadDouble(resolve: Resolver, model: Store, a: Attr): Result<Double, Error> {
    var v :- Resolve(resolve, model, a);
    AsDouble(a, v)
  }

  /** The entries of a list node, each read with `asString()`, in order. */
  function AsStrings(items: seq<Value>): (r: Result<seq<string>, Error>)
    ensures r.Success? <==> forall i :: 0 <= i < |items| ==> items[i].Str?
    ensures r.Success? ==> |r.value| == |items|
    ensures r.Success? ==> forall i :: 0 <= i < |items| ==> items[i] == Str(r.value[i])
    ensures r.Failure? ==> r.error == ConversionFailed(StaticConnectors)
    decreases |items|
  {
    if items == [] then
      Success([])
    else
      var s :- AsString(StaticConnectors, items[0]);
      var rest :- AsStrings(items[1..]);
      Success([s] + rest)
  }

  /**
    `getStaticConnectors(model)`: absent when the static-connectors key is not defined,
    otherwise the string form of each list entry in order. A defined value that is not a
    list cannot be read with `asList()`.
   */
  function GetStaticConnectors(model: Store): (r: Result<Option<seq<string>>, Error>)
    ensures !HasDefined(model, StaticConnectors) ==> r == Success(None)
    ensures r.Success? && r.value.Some? ==>
      HasDefined(model, StaticConnectors) && model[StaticConnectors].List?
      && |r.value.value| == |model[StaticConnectors].items|
      && forall i :: 0 <= i < |r.value.value| ==> model[StaticConnectors].items[i] == Str(r.value.value[i])
    ensures HasDefined(model, StaticConnectors) ==>
      (r.Success? <==> model[StaticConnectors].List?
                       && forall i :: 0 <= i < |model[StaticConnectors].items| ==> model[StaticConnectors].items[i].Str?)
    ensures r.Success? && HasDefined(model, StaticConnectors) ==> r.value.Some?
  {
    if !HasDefined(model, StaticConnectors) then
      Success(None)
    else
      match model[StaticConnectors]
      case List(items) =>
        var names :- AsStrings(items);
        Success(Some(names))
      case _ => Failure(ConversionFailed(StaticConnectors))
  }

  /** The values read before the discovery group, in source order. */
  datatype Head = Head(
    address: string,
    connectorName: string,
    retryInterval: Int64,
    duplicateDetection: bool,
    forwardWhenNoConsumers: bool,
    maxHops: Int32,
    confirmationWindowSize: Int32)

  /** The discovery-group name (absent when the resolved node is undefined) and the static connectors. */
  datatype Strategy = Strategy(discoveryGroupName: Option<string>, staticConnectors: Option<seq<string>>)

  /** The values read after the static connectors, in source order. */
  datatype Tail = Tail(
    allowDirectOnly: bool,
    minLargeMessageSize: Int32,
    clientFailureCheckPeriod: Int64,
    connectionTtl: Int64,
    callTimeout: Int64,
    reconnectAttempts: Int32,
    maxRetryInterval: Int64,
    retryIntervalMultiplier: Double)

  function ReadHead(resolve: Resolver, model: Store): (r: Result<Head, Error>)
    ensures r.Success? <==>
      && ReadString(resolve, model, ClusterConnectionAddress).Success?
      && ReadString(resolve, model, ConnectorRef).Success?
      && ReadLong(resolve, model, RetryInterval).Success?
      && ReadBool(resolve, model, UseDuplicateDetection).Success?
      && ReadBool(resolve, model, ForwardWhenNoConsumers).Success?
      && ReadInt(resolve, model, MaxHops).Success?
      && ReadInt(resolve, model, ConfirmationWindowSize).Success?
    ensures r.Success? ==>
      && ReadString(resolve, model, ClusterConnectionAddress) == Success(r.value.address)
      && ReadString(resolve, model, ConnectorRef) == Success(r.value.connectorName)
      && ReadLong(resolve, model, RetryInterval) == Success(r.value.retryInterval)
      && ReadBool(resolve, model, UseDuplicateDetection) == Success(r.value.duplicateDetection)
      && ReadBool(resolve, model, ForwardWhenNoConsumers) == Success(r.value.forwardWhenNoConsumers)
      && ReadInt(resolve, model, MaxHops) == Success(r.value.maxHops)
      && ReadInt(resolve, model, ConfirmationWindowSize) == Success(r.value.confirmationWindowSize)
  {
    var address :- ReadString(resolve, model, ClusterConnectionAddress);
    var connectorName :- ReadString(resolve, model, ConnectorRef);
    var retryInterval :- ReadLong(resolve, model, RetryInterval);
    var duplicateDetection :- ReadBool(resolve, model, UseDuplicateDetection);
    var forwardWhenNoConsumers :- ReadBool(resolve, model, ForwardWhenNoConsumers);
    var maxHops :- ReadInt(resolve, model, MaxHops);
    var confirmationWindowSize :- ReadInt(resolve, model, ConfirmationWindowSize);
    Success(Head(address, connectorName, retryInterval, duplicateDetection, forwardWhenNoConsumers,
                 maxHops, confirmationWindowSize))
  }

  /**
    The resolved discovery-group node decides the strategy: a defined node gives its
    string and the static connectors are not read; an undefined one gives no group name
    and the static connectors of the raw model.
   */
  function ReadStrategy(resolve: Resolver, model: Store): (r: Result<Strategy, Error>)
    ensures r.Success? ==>
      Resolve(resolve, model, DiscoveryGroupName).Success?
      && (r.value.discoveryGroupName.Some? <==> !Resolve(resolve, model, DiscoveryGroupName).value.Undefined?)
    ensures r.Success? && r.value.discoveryGroupName.Some? ==>
      Resolve(resolve, model, DiscoveryGroupName).value == Str(r.value.discoveryGroupName.value)
      && r.value.staticConnectors.None?
    ensures r.Success? && r.value.discoveryGroupName.None? ==>
      GetStaticConnectors(model) == Success(r.value.staticConnectors)
    ensures Resolve(resolve, model, DiscoveryGroupName).Failure? ==> r.Failure?
    ensures Resolve(resolve, model, DiscoveryGroupName) == Success(Undefined) ==>
      (r.Success? <==> GetStaticConnectors(model).Success?)
    ensures Resolve(resolve, model, DiscoveryGroupName).Success? && Resolve(resolve, model, DiscoveryGroupName).value.Str? ==>
      r == Success(Strategy(Some(Resolve(resolve, model, DiscoveryGroupName).value.s), None))
  {
    var discoveryNode :- Resolve(resolve, model, DiscoveryGroupName);
    if discoveryNode.Undefined? then
      var staticConnectors :- GetStaticConnectors(model);
      Success(Strategy(None, staticConnectors))
    else
      var discoveryGroupName :- AsString(DiscoveryGroupName, discoveryNode);
      Success(Strategy(Some(discoveryGroupName), None))
  }

  function ReadTail(resolve: Resolver, model: Store): (r: Result<Tail, Error>)
    ensures r.Success? <==>
      && ReadBool(resolve, model, AllowDirectConnectionsOnly).Success?
      && ReadInt(resolve, model, MinLargeMessageSize).Success?
      && ReadInt(resolve, model, CheckPeriod).Success?
      && ReadInt(resolve, model, ConnectionTtl).Success?
      && ReadLong(resolve, model, CallTimeout).Success?
      && ReadInt(resolve, model, ReconnectAttempts).Success?
      && ReadLong(resolve, model, MaxRetryInterval).Success?
      && ReadDouble(resolve, model, RetryIntervalMultiplier).Success?
    ensures r.Success? ==>
      && ReadBool(resolve, model, AllowDirectConnectionsOnly) == Success(r.value.allowDirectOnly)
      && ReadInt(resolve, model, MinLargeMessageSize) == Success(r.value.minLargeMessageSize)
      && ReadInt(resolve, model, CheckPeriod) == Success(r.value.clientFailureCheckPeriod)
      && ReadInt(resolve, model, ConnectionTtl) == Success(r.value.connectionTtl)
      && ReadLong(resolve, model, CallTimeout) == Success(r.value.callTimeout)
      && ReadInt(resolve, model, ReconnectAttempts) == Success(r.value.reconnectAttempts)
      && ReadLong(resolve, model, MaxRetryInterval) == Success(r.value.maxRetryInterval)
      && ReadDouble(resolve, model, RetryIntervalMultiplier) == Success(r.value.retryIntervalMultiplier)
  {
    var allowDirectOnly :- ReadBool(resolve, model, AllowDirectConnectionsOnly);
    var minLargeMessageSize :- ReadInt(resolve, model, MinLargeMessageSize);
    // read with asInt() and widened to long
    var clientFailureCheckPeriod :- ReadInt(resolve, model, CheckPeriod);
    var connectionTtl :- ReadInt(resolve, model, ConnectionTtl);
    var callTimeout :- ReadLong(resolve, model, CallTimeout);
    var reconnectAttempts :- ReadInt(resolve, model, ReconnectAttempts);
    var maxRetryInterval :- ReadLong(resolve, model, MaxRetryInterval);
    var retryIntervalMultiplier :- ReadDouble(resolve, model, RetryIntervalMultiplier);
    Success(Tail(allowDirectOnly, minLargeMessageSize, clientFailureCheckPeriod, connectionTtl,
                 callTimeout, reconnectAttempts, maxRetryInterval, retryIntervalMultiplier))
  }

  /** The attributes `createClusterConnectionConfiguration` resolves whatever the topology. */
  const ResolvedAttrs: set<Attr> := {
    ClusterConnectionAddress, ConnectorRef, RetryInterval, UseDuplicateDetection,
    ForwardWhenNoConsumers, MaxHops, ConfirmationWindowSize, DiscoveryGroupName,
    AllowDirectConnectionsOnly, MinLargeMessageSize, CheckPeriod, ConnectionTtl,
    CallTimeout, ReconnectAttempts, MaxRetryInterval, RetryIntervalMultiplier
  }

  /**
    The final `new ClusterConnectionConfiguration(...)`: the discovery-group constructor
    when a group name was read, the static-connector constructor otherwise.
   */
  function Assemble(name: string, head: Head, strategy: Strategy, tail: Tail): ClusterConnectionConfiguration {
    var topology :=
      if strategy.discoveryGroupName.Some? then Discovery(strategy.discoveryGroupName.value)
      else Static(strategy.staticConnectors, tail.allowDirectOnly);
    ClusterConnectionConfiguration(
      name, head.address, head.connectorName, tail.minLargeMessageSize,
      tail.clientFailureCheckPeriod, tail.connectionTtl, head.retryInterval,
      tail.retryIntervalMultiplier, tail.maxRetryInterval, tail.reconnectAttempts, tail.callTimeout,
      head.duplicateDetection, head.forwardWhenNoConsumers, head.maxHops,
      head.confirmationWindowSize, topology)
  }

  /**
    `createClusterConnectionConfiguration(context, name, model)`: resolves the address, the
    connector reference, the scalars and the discovery group in source order (the first
    refusal is the result); reads the static connectors unresolved from the raw model, and
    only when the resolved discovery group is undefined. It then builds the discovery-group
    configuration when that group is defined and the static-connector configuration
    otherwise. The name is the caller's, never a model attribute.
   */
  function CreateClusterConnectionConfiguration(resolve: Resolver, name: string, model: Store)
    : (r: Result<ClusterConnectionConfiguration, Error>)
    ensures r.Success? <==>
      ReadHead(resolve, model).Success? && ReadStrategy(resolve, model).Success? && ReadTail(resolve, model).Success?
    ensures r.Success? ==> r.value.name == name
    ensures r.Success? ==> IsInt32(r.value.clientFailureCheckPeriod) && IsInt32(r.value.connectionTtl)
    ensures r.Success? ==>
      Resolve(resolve, model, DiscoveryGroupName).Success?
      && (r.value.topology.Discovery? <==> !Resolve(resolve, model, DiscoveryGroupName).value.Undefined?)
  {
    var head :- ReadHead(resolve, model);
    var strategy :- ReadStrategy(resolve, model);
    var tail :- ReadTail(resolve, model);
    Success(Assemble(name, head, strategy, tail))
  }

  // ---------------------------------------------------------------------------------------
  // addClusterConnectionConfigs

  /** One child of the `cluster-connection` node: the connection's name and its model. */
  datatype Property = Property(name: string, model: Store)

  /**
    The messaging server's model as far as the aggregator reads it: the `cluster-connection`
    child, absent when undefined, otherwise its properties in declaration order.
   */
  datatype ServerModel = ServerModel(clusterConnection: Option<seq<Property>>)

  /**
    The broker's cluster-configuration list after the aggregator ran, and the failure it
    stopped on, if any. The list is extended in place, so on a failure it keeps every
    configuration appended before the failing one.
   */
  datatype Appended = Appended(configs: seq<ClusterConnectionConfiguration>, failure: Option<Error>)

  /** The configuration built for property `p` is `c`. */
  predicate BuildsTo(resolve: Resolver, p: Property, c: ClusterConnectionConfiguration) {
    CreateClusterConnectionConfiguration(resolve, p.name, p.model) == Success(c)
  }

  /**
    Builds one configuration per property, in order, stopping at the first failure; the
    configurations built before a failure are kept, since the source adds each to the
    broker's list as soon as it is built.
   */
  function BuildEach(resolve: Resolver, props: seq<Property>): (r: Appended)
    ensures |r.configs| <= |props|
    ensures forall i :: 0 <= i < |r.configs| ==> BuildsTo(resolve, props[i], r.configs[i])
    ensures r.failure.None? ==> |r.configs| == |props|
    ensures r.failure.Some? ==>
      |r.configs| < |props|
      && CreateClusterConnectionConfiguration(resolve, props[|r.configs|].name, props[|r.configs|].model)
         == Failure(r.failure.value)
    decreases |props|
  {
    if props == [] then
      Appended([], None)
    else
      match CreateClusterConnectionConfiguration(resolve, props[0].name, props[0].model)
      case Failure(e) => Appended([], Some(e))
      case Success(c) =>
        var rest := BuildEach(resolve, props[1..]);
        Appended([c] + rest.configs, rest.failure)
  }

  /** Where the elements of a concatenation are found. */
  lemma ConcatIndices<T>(xs: seq<T>, ys: seq<T>)
    ensures (xs + ys)[..|xs|] == xs
    ensures forall i :: 0 <= i < |ys| ==> (xs + ys)[|xs| + i] == ys[i]
  {
  }

  /**
    `addClusterConnectionConfigs(context, configuration, model)`: when the server's
    `cluster-connection` child is defined, appends one configuration per declared cluster
    connection, in declaration order, to the broker's existing list; otherwise leaves it alone.
   */
  function AddClusterConnectionConfigs(resolve: Resolver, configs: seq<ClusterConnectionConfiguration>,
                                       server: ServerModel): (r: Appended)
    ensures server.clusterConnection.None? ==> r == Appended(configs, None)
    ensures |configs| <= |r.configs| && r.configs[..|configs|] == configs
    ensures server.clusterConnection.Some? && r.failure.None? ==>
      var props := server.clusterConnection.value;
      |r.configs| == |configs| + |props|
      && forall i :: 0 <= i < |props| ==> BuildsTo(resolve, props[i], r.configs[|configs| + i])
    ensures r.failure.Some? ==>
      var props := server.clusterConnection.value;
      var k := |r.configs| - |configs|;
      server.clusterConnection.Some? && k < |props|
      && CreateClusterConnectionConfiguration(resolve, props[k].name, props[k].model) == Failure(r.failure.value)
      && forall i :: 0 <= i < k ==> BuildsTo(resolve, props[i], r.configs[|configs| + i])
  {
    match server.clusterConnection
    case None => Appended(configs, None)
    case Some(props) =>
      var added := BuildEach(resolve, props);
      ConcatIndices(configs, added.configs);
      Appended(configs + added.configs, added.failure)
  }
}

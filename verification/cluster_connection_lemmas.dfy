/** Properties of the cluster-connection add handler that relate several calls or inputs. */
module ClusterConnectionProperties {
  import opened Wrappers
  import opened Dmr
  import opened HornetQConfig
  import opened ClusterConnectionAdd

  // ---------------------------------------------------------------------------------------
  // populateModel

  /** The model is emptied before it is populated: what it held before never shows. */
  lemma PopulateModelIgnoresPriorModel(op: Store, m1: Store, m2: Store, table: seq<Attr>, validate: Validator)
    ensures PopulateModel(op, m1, table, validate) == PopulateModel(op, m2, table, validate)
  {
  }

  /**
    An admissible operation that still fails reports the error of the first attribute
    refused, in table order.
   */
  lemma PopulateModelReportsFirstRefusal(op: Store, model: Store, table: seq<Attr>, validate: Validator)
    requires !(HasDefined(op, ClusterConnectionConnectors) && HasDefined(op, DiscoveryGroupName))
    requires PopulateModel(op, model, table, validate).Failure?
    ensures exists i :: FirstRefusal(op, table, HasDefined(op, ClusterConnectionConnectors),
                                     HasDefined(op, DiscoveryGroupName), validate, i,
                                     PopulateModel(op, model, table, validate).error)
  {
    ValidateAndSetAllFailsAtFirstRefusal(op, table, HasDefined(op, ClusterConnectionConnectors),
                                         HasDefined(op, DiscoveryGroupName), validate, map[]);
  }

  // ---------------------------------------------------------------------------------------
  // getStaticConnectors

  /** The list node holding `names`, one string node per name. */
  function StringNodes(names: seq<string>): (items: seq<Value>)
    ensures |items| == |names|
    ensures forall i :: 0 <= i < |names| ==> items[i] == Str(names[i])
  {
    seq(|names|, i requires 0 <= i < |names| => Str(names[i]))
  }

  /** Reading back a list of string nodes gives the names, in order. */
  lemma StaticConnectorsRoundTrip(model: Store, names: seq<string>)
    requires Get(model, StaticConnectors) == List(StringNodes(names))
    ensures GetStaticConnectors(model) == Success(Some(names))
  {
    var r := GetStaticConnectors(model);
    assert r.Success?;
    assert r.value.value == names;
  }

  /** A list that reads successfully is exactly the string nodes of what was read. */
  lemma StaticConnectorsAreTheListEntries(model: Store)
    requires GetStaticConnectors(model).Success? && GetStaticConnectors(model).value.Some?
    ensures model[StaticConnectors] == List(StringNodes(GetStaticConnectors(model).value.value))
  {
  }

  // ---------------------------------------------------------------------------------------
  // createClusterConnectionConfiguration

  /** Every field of `c` other than name and topology is the value read for its attribute. */
  predicate CarriesScalars(resolve: Resolver, model: Store, c: ClusterConnectionConfiguration) {
    && ReadString(resolve, model, ClusterConnectionAddress) == Success(c.address)
    && ReadString(resolve, model, ConnectorRef) == Success(c.connectorName)
    && ReadInt(resolve, model, MinLargeMessageSize) == Success(c.minLargeMessageSize)
    && ReadInt(resolve, model, CheckPeriod) == Success(c.clientFailureCheckPeriod)
    && ReadInt(resolve, model, ConnectionTtl) == Success(c.connectionTtl)
    && ReadLong(resolve, model, RetryInterval) == Success(c.retryInterval)
    && ReadDouble(resolve, model, RetryIntervalMultiplier) == Success(c.retryIntervalMultiplier)
    && ReadLong(resolve, model, MaxRetryInterval) == Success(c.maxRetryInterval)
    && ReadInt(resolve, model, ReconnectAttempts) == Success(c.reconnectAttempts)
    && ReadLong(resolve, model, CallTimeout) == Success(c.callTimeout)
    && ReadBool(resolve, model, UseDuplicateDetection) == Success(c.duplicateDetection)
    && ReadBool(resolve, model, ForwardWhenNoConsumers) == Success(c.forwardWhenNoConsumers)
    && ReadInt(resolve, model, MaxHops) == Success(c.maxHops)
    && ReadInt(resolve, model, ConfirmationWindowSize) == Success(c.confirmationWindowSize)
  }

  /** A built configuration carries, unchanged, the value read for each scalar attribute. */
  lemma BuildCarriesResolvedScalars(resolve: Resolver, name: string, model: Store)
    requires CreateClusterConnectionConfiguration(resolve, name, model).Success?
    ensures CarriesScalars(resolve, model, CreateClusterConnectionConfiguration(resolve, name, model).value)
  {
  }

  /** The discovery-group variant carries exactly the resolved group name. */
  lemma BuildDiscoveryCarriesGroupName(resolve: Resolver, name: string, model: Store)
    requires CreateClusterConnectionConfiguration(resolve, name, model).Success?
    requires !Resolve(resolve, model, DiscoveryGroupName).value.Undefined?
    ensures var c := CreateClusterConnectionConfiguration(resolve, name, model).value;
      c.topology.Discovery? && Resolve(resolve, model, DiscoveryGroupName) == Success(Str(c.topology.groupName))
  {
  }

  /**
    The static variant carries the static-connector list of the raw model and the resolved
    allow-direct-only flag.
   */
  lemma BuildStaticCarriesConnectors(resolve: Resolver, name: string, model: Store)
    requires CreateClusterConnectionConfiguration(resolve, name, model).Success?
    requires Resolve(resolve, model, DiscoveryGroupName).value.Undefined?
    ensures var c := CreateClusterConnectionConfiguration(resolve, name, model).value;
      && c.topology.Static?
      && GetStaticConnectors(model) == Success(c.topology.connectors)
      && ReadBool(resolve, model, AllowDirectConnectionsOnly) == Success(c.topology.allowDirectOnly)
  {
  }

  /**
    A model that defines neither strategy is not refused: once the scalar reads succeed, it
    builds the static variant with no connector list.
   */
  lemma NeitherStrategyTakesStaticBranch(resolve: Resolver, name: string, model: Store)
    requires ReadHead(resolve, model).Success? && ReadTail(resolve, model).Success?
    requires Resolve(resolve, model, DiscoveryGroupName) == Success(Undefined)
    requires !HasDefined(model, StaticConnectors)
    ensures CreateClusterConnectionConfiguration(resolve, name, model).Success?
    ensures var c := CreateClusterConnectionConfiguration(resolve, name, model).value;
      c.topology.Static? && c.topology.connectors == None
  {
  }

  /** A refusal to resolve any attribute the builder reads fails the build. */
  lemma ResolveRefusalFailsBuild(resolve: Resolver, name: string, model: Store, a: Attr)
    requires a in ResolvedAttrs && Resolve(resolve, model, a).Failure?
    ensures CreateClusterConnectionConfiguration(resolve, name, model).Failure?
  {
  }

  /**
    The check period and connection TTL are read with `asInt()`: a resolved long keeps only
    its low 32 bits, so a value outside the int range is not carried as given.
   */
  lemma CheckPeriodAndTtlReadAsInt(resolve: Resolver, name: string, model: Store, period: Int64, ttl: Int64)
    requires Resolve(resolve, model, CheckPeriod) == Success(Long(period))
    requires Resolve(resolve, model, ConnectionTtl) == Success(Long(ttl))
    requires CreateClusterConnectionConfiguration(resolve, name, model).Success?
    ensures var c := CreateClusterConnectionConfiguration(resolve, name, model).value;
      && c.clientFailureCheckPeriod == Narrow(period)
      && c.connectionTtl == Narrow(ttl)
      && (c.clientFailureCheckPeriod == period <==> IsInt32(period))
      && (c.connectionTtl == ttl <==> IsInt32(ttl))
  {
  }

  /** The name is the caller's: building under another name changes the name and nothing else. */
  lemma BuildNameIsTheCallers(resolve: Resolver, n1: string, n2: string, model: Store)
    requires CreateClusterConnectionConfiguration(resolve, n1, model).Success?
    ensures CreateClusterConnectionConfiguration(resolve, n2, model)
         == Success(CreateClusterConnectionConfiguration(resolve, n1, model).value.(name := n2))
  {
  }

  /**
    Each attribute is resolved from its own value in the model: two models that hold the
    same value under `a` resolve `a` alike, whatever else they hold.
   */
  lemma ResolveReadsOnlyItsOwnKey(resolve: Resolver, m1: Store, m2: Store, a: Attr)
    requires Get(m1, a) == Get(m2, a)
    ensures Resolve(resolve, m1, a) == Resolve(resolve, m2, a)
  {
  }

  /** The attributes that only decide the topology. */
  predicate TopologyAttr(a: Attr) {
    a == DiscoveryGroupName || a == StaticConnectors || a == AllowDirectConnectionsOnly
      || a == ClusterConnectionConnectors
  }

  /** The scalars read before the strategy do not depend on the topology attributes. */
  lemma HeadIgnoresTopology(resolve: Resolver, m1: Store, m2: Store)
    requires forall a :: !TopologyAttr(a) ==> Get(m1, a) == Get(m2, a)
    ensures ReadHead(resolve, m1) == ReadHead(resolve, m2)
  {
  }

  /** The scalars read after the strategy do not depend on the topology attributes. */
  lemma TailIgnoresTopology(resolve: Resolver, m1: Store, m2: Store)
    requires forall a :: !TopologyAttr(a) ==> Get(m1, a) == Get(m2, a)
    requires ReadTail(resolve, m1).Success? && ReadTail(resolve, m2).Success?
    ensures ReadTail(resolve, m1).value.(allowDirectOnly := ReadTail(resolve, m2).value.allowDirectOnly)
         == ReadTail(resolve, m2).value
  {
  }

  /**
    The scalar fields are passed through the same way into either variant: two models that
    agree on every non-topology attribute give configurations that differ at most in topology.
   */
  lemma ScalarsIndependentOfTopology(resolve: Resolver, name: string, m1: Store, m2: Store)
    requires forall a :: !TopologyAttr(a) ==> Get(m1, a) == Get(m2, a)
    requires CreateClusterConnectionConfiguration(resolve, name, m1).Success?
    requires CreateClusterConnectionConfiguration(resolve, name, m2).Success?
    ensures var c1 := CreateClusterConnectionConfiguration(resolve, name, m1).value;
      var c2 := CreateClusterConnectionConfiguration(resolve, name, m2).value;
      c1.(topology := c2.topology) == c2
  {
    HeadIgnoresTopology(resolve, m1, m2);
    TailIgnoresTopology(resolve, m1, m2);
  }

  // ---------------------------------------------------------------------------------------
  // addClusterConnectionConfigs

  /**
    The configurations appended are named after the declared cluster connections, in
    declaration order, whether or not the aggregation stopped on a failure.
   */
  lemma AppendedNamesFollowDeclarationOrder(resolve: Resolver, configs: seq<ClusterConnectionConfiguration>,
                                            server: ServerModel)
    requires server.clusterConnection.Some?
    ensures var r := AddClusterConnectionConfigs(resolve, configs, server);
      forall i :: 0 <= i < |r.configs| - |configs| ==>
        r.configs[|configs| + i].name == server.clusterConnection.value[i].name
  {
  }

  /** Names are not checked for uniqueness: two connections with one name are both appended. */
  lemma DuplicateNamesAreAppended(resolve: Resolver, configs: seq<ClusterConnectionConfiguration>,
                                  name: string, m1: Store, m2: Store)
    requires CreateClusterConnectionConfiguration(resolve, name, m1).Success?
    requires CreateClusterConnectionConfiguration(resolve, name, m2).Success?
    ensures var r := AddClusterConnectionConfigs(resolve, configs,
                                                 ServerModel(Some([Property(name, m1), Property(name, m2)])));
      && r.failure.None?
      && |r.configs| == |configs| + 2
      && r.configs[|configs|].name == name
      && r.configs[|configs| + 1].name == name
  {
  }
}

# Cluster-connection add handler of the messaging subsystem

This project models the handler that adds a `cluster-connection` resource to a
HornetQ messaging server in the JBoss application server's management layer. A
cluster connection tells one broker how to find its peers and forward messages to
them. It names either an explicit list of static connectors or a discovery group.
The handler has four parts, and each is a module member here:

- **Admission (`populateModel`)**: the resource model is emptied first. Then an add
  operation that names both the cluster-connection connectors and a discovery group
  is refused. Otherwise every attribute of the cluster-connection attribute table is
  validated and set, except the one that belongs to the strategy not chosen.
- **Runtime step (`performRuntime`)**: if the HornetQ service is already
  registered, the operation is marked reload-required. Otherwise nothing happens.
- **Configuration builder (`createClusterConnectionConfiguration`,
  `getStaticConnectors`)**: resolves the address, the connector reference, the
  scalars and the discovery group of one connection's model. It reads the static
  connectors unresolved from the raw model, and only when the resolved discovery
  group is undefined. It then builds one of the two HornetQ configuration shapes:
  the discovery-group shape when the resolved discovery group is defined, the
  static-connector shape otherwise.
- **Aggregator (`addClusterConnectionConfigs`)**: appends one configuration per
  declared cluster connection, in declaration order, to the broker's list.

Files:

- `wrappers.dfy`: `Option` and `Result`.
- `dmr.dfy`: the management-model node as a map from attribute key to value, and
  the `asString`/`asInt`/`asLong`/`asBoolean`/`asDouble` conversions. Java's
  `(int)` cast of a `long` is written out as 32-bit two's-complement truncation.
- `hornetq_config.dfy`: HornetQ's `ClusterConnectionConfiguration` with a
  two-constructor `Topology`.
- `cluster_connection_add.dfy`: the handler.
- `cluster_connection_lemmas.dfy`: properties that relate several calls or inputs.

The foreign collaborators are parameters:

- `AttributeDefinition.validateAndSet` is a `Validator` function.
- `resolveModelAttribute` is a `Resolver` function. It sees the attribute and the
  model's raw value for it, and returns a resolved value or a refusal.
- The cluster-connection attribute table is a `seq<Attr>`.
- The service registry lookup is a boolean.

The model follows the code, which:

- does not refuse a model that defines neither strategy. Such a model takes the
  static branch with no connector list.
- does not check connection names for uniqueness.
- does not check the retry-interval multiplier against 1.
- does not aggregate all-or-nothing. Each configuration is added to the broker's
  list as soon as it is built. After a failure, the list keeps those appended
  before the failing one, and the model returns that list together with the error.
- only raises the reload-required flag in the runtime step. It never lowers it.

## Model

| member | source | states |
|---|---|---|
| ClusterConnectionAdd.PopulateModel | messaging/src/main/java/org/jboss/as/messaging/ClusterConnectionAdd.java:71-90 | An operation that defines both the cluster-connection connectors and the discovery group fails with the mutual-exclusion error. Otherwise it succeeds exactly when every admitted attribute validates. Success yields a model whose keys are exactly the admitted table attributes, so nothing survives the emptying. The connectors key is absent when a discovery group is given, and the discovery-group key is absent when connectors are given. Each stored value is the validator's result for the operation's value. |
| ClusterConnectionAdd.ValidateAndSetAll | messaging/src/main/java/org/jboss/as/messaging/ClusterConnectionAdd.java:82-89 | The loop succeeds exactly when every attribute of the table that is not skipped validates. On success it adds exactly those keys, each with its validated value, and leaves every other key of the model as it was. |
| ClusterConnectionAdd.ValidateAndSetAllFailsAtFirstRefusal | messaging/src/main/java/org/jboss/as/messaging/ClusterConnectionAdd.java:82-89 | When the loop fails, its error is the refusal of the first validated attribute in table order. Every earlier attribute that was not skipped validated. |
| ClusterConnectionProperties.PopulateModelReportsFirstRefusal | messaging/src/main/java/org/jboss/as/messaging/ClusterConnectionAdd.java:77-89 | An operation naming at most one strategy that fails population reports the first refusal in table order. |
| ClusterConnectionProperties.PopulateModelIgnoresPriorModel | messaging/src/main/java/org/jboss/as/messaging/ClusterConnectionAdd.java:73 | The model is emptied first, so its prior contents never affect the outcome. |
| ClusterConnectionAdd.PerformRuntime | messaging/src/main/java/org/jboss/as/messaging/ClusterConnectionAdd.java:93-102 | The reload-required flag is raised when the HornetQ service is registered. Otherwise the flag is left as it was. |
| Dmr.Narrow | messaging/src/main/java/org/jboss/as/messaging/ClusterConnectionAdd.java:133-134 | Java's `(int)` cast of a long: the result is congruent to the input modulo 2^32, and equals the input when the input is in the int range. |
| Dmr.AsInt | messaging/src/main/java/org/jboss/as/messaging/ClusterConnectionAdd.java:132-134 | `asInt` succeeds on int and long values only. An int reads as itself. A long reads as its 32-bit truncation, which equals it when it is in range. |
| ClusterConnectionAdd.AsStrings | messaging/src/main/java/org/jboss/as/messaging/ClusterConnectionAdd.java:157-161 | Reading list entries as strings succeeds exactly when every entry is a string. The result has the same length and order, and entry i is the string form of item i. |
| ClusterConnectionAdd.GetStaticConnectors | messaging/src/main/java/org/jboss/as/messaging/ClusterConnectionAdd.java:153-162 | The result is absent when the static-connectors key is undefined. Otherwise it is a list of the same length and order as the model's list, element i being entry i's string. It fails exactly when the value is not a list of strings. |
| ClusterConnectionProperties.StaticConnectorsRoundTrip | messaging/src/main/java/org/jboss/as/messaging/ClusterConnectionAdd.java:157-161 | In any model whose static-connectors value is a list of string nodes, reading the static connectors back gives the same names in the same order. |
| ClusterConnectionProperties.StaticConnectorsAreTheListEntries | messaging/src/main/java/org/jboss/as/messaging/ClusterConnectionAdd.java:157-161 | A successfully read connector list is exactly the model's list node, entry for entry. This is the converse of the round trip. |
| ClusterConnectionAdd.ReadHead | messaging/src/main/java/org/jboss/as/messaging/ClusterConnectionAdd.java:121-127 | Succeeds exactly when all seven reads succeed: address, connector name, retry interval, duplicate detection, forward-when-no-consumers, max hops and confirmation window. On success each field is the value read for its attribute. |
| ClusterConnectionAdd.ReadStrategy | messaging/src/main/java/org/jboss/as/messaging/ClusterConnectionAdd.java:128-130 | A refused discovery-group resolution fails. A resolved group string gives exactly that name with no connectors, and succeeds whatever the static-connectors value is, since that value is not read. An undefined resolved group succeeds exactly when the static connectors read, and carries the raw model's connectors. A group name is present exactly when the resolved node is defined. |
| ClusterConnectionAdd.ReadTail | messaging/src/main/java/org/jboss/as/messaging/ClusterConnectionAdd.java:131-138 | Succeeds exactly when all eight reads succeed: allow-direct-only, min large message size, check period, TTL, call timeout, reconnect attempts, max retry interval and retry-interval multiplier. On success each field is the value read for its attribute. Check period and TTL are read with `asInt`. |
| ClusterConnectionAdd.CreateClusterConnectionConfiguration | messaging/src/main/java/org/jboss/as/messaging/ClusterConnectionAdd.java:119-151 | The build succeeds exactly when the scalar reads before the strategy, the strategy read and the scalar reads after it all succeed. The configuration's name is the caller's. Check period and connection TTL lie in the 32-bit int range. The discovery-group variant is built exactly when the resolved discovery-group node is defined. |
| ClusterConnectionProperties.BuildDiscoveryCarriesGroupName | messaging/src/main/java/org/jboss/as/messaging/ClusterConnectionAdd.java:128-129 | If the resolved discovery group is defined, the built configuration is the discovery-group variant carrying exactly that group name. |
| ClusterConnectionProperties.BuildStaticCarriesConnectors | messaging/src/main/java/org/jboss/as/messaging/ClusterConnectionAdd.java:145-149 | If the resolved discovery group is undefined, the built configuration is the static variant. It carries the model's static-connector list and the resolved allow-direct-only flag. |
| ClusterConnectionProperties.NeitherStrategyTakesStaticBranch | messaging/src/main/java/org/jboss/as/messaging/ClusterConnectionAdd.java:129-130 | A model that defines neither strategy is not refused: when the scalar reads succeed, the build succeeds. It gives the static variant with an absent connector list. |
| ClusterConnectionProperties.BuildCarriesResolvedScalars | messaging/src/main/java/org/jboss/as/messaging/ClusterConnectionAdd.java:141-149 | Every scalar field of a built configuration is the value read for its attribute, passed through unchanged. |
| ClusterConnectionProperties.ScalarsIndependentOfTopology | messaging/src/main/java/org/jboss/as/messaging/ClusterConnectionAdd.java:140-150 | Take two models that agree on every attribute except the strategy attributes. If both build, the configurations differ at most in topology, so the scalars go the same way into either variant. |
| ClusterConnectionProperties.ResolveReadsOnlyItsOwnKey | messaging/src/main/java/org/jboss/as/messaging/ClusterConnectionAdd.java:121-138 | Each attribute is resolved from the model's value under that attribute's own key. Two models holding the same value there resolve it alike. |
| ClusterConnectionProperties.BuildNameIsTheCallers | messaging/src/main/java/org/jboss/as/messaging/ClusterConnectionAdd.java:119-141 | Building under another name succeeds as well and changes only the name. The name is never read from the model. |
| ClusterConnectionProperties.ResolveRefusalFailsBuild | messaging/src/main/java/org/jboss/as/messaging/ClusterConnectionAdd.java:121-138 | If resolving any attribute the builder reads is refused, the build fails, whichever branch would have been taken. |
| ClusterConnectionProperties.CheckPeriodAndTtlReadAsInt | messaging/src/main/java/org/jboss/as/messaging/ClusterConnectionAdd.java:133-134 | A check period or TTL resolved as a long is carried as its 32-bit truncation. It is carried unchanged exactly when it is in the int range. |
| ClusterConnectionAdd.BuildEach | messaging/src/main/java/org/jboss/as/messaging/ClusterConnectionAdd.java:112-114 | Configurations built so far are those of the first properties, in order. With no failure there is one per property. A failure is the build error of the first property that fails. |
| ClusterConnectionAdd.AddClusterConnectionConfigs | messaging/src/main/java/org/jboss/as/messaging/ClusterConnectionAdd.java:109-117 | An undefined cluster-connection child leaves the list unchanged. Otherwise the old list is a prefix of the new one, and entry i after it is the configuration built from property i. With no failure there is one entry per property. On a failure, the entries built before the failing property stay appended. |
| ClusterConnectionProperties.AppendedNamesFollowDeclarationOrder | messaging/src/main/java/org/jboss/as/messaging/ClusterConnectionAdd.java:112-113 | The appended configurations carry the declared connection names in declaration order. |
| ClusterConnectionProperties.DuplicateNamesAreAppended | messaging/src/main/java/org/jboss/as/messaging/ClusterConnectionAdd.java:112-113 | Two declared connections with the same name are both appended, with no uniqueness check. |

## Left out

- `getModelDescription`: a localized description lookup in another class; it has no logic here.
- The internals of `validateAndSet` and `resolveModelAttribute`: expression resolution, per-attribute defaults, validators and bounds. These live in classes that are not part of this model. Both are injected total functions that may refuse. The rewriting of the operation's own value by `validateAndSet` is not modelled.
- The contents of the cluster-connection attribute table: it is defined elsewhere, so it is a parameter.
- The relation between the connectors attribute that `populateModel` tests and the static-connectors key that `getStaticConnectors` reads: they are two distinct keys.
- jboss-dmr conversions across value kinds: string parsing to numbers or booleans, `toString` of numbers, lists or undefined values, and int or long to double. Reading a value of another kind is modelled as a conversion failure. Only same-kind reads and int/long widening and narrowing are modelled.
- The retry-interval multiplier: a Java double, carried as an uninterpreted 64-bit pattern with no arithmetic or bound.
- The service registry and `MessagingServices.getHornetQServiceName`: replaced by one boolean, whether the HornetQ service for the operation's address is registered.
- The add-step framework (`AbstractAddStepHandler`) that runs population before the runtime step, and the rollback of a failed operation: not part of this handler.
- Error message text: the mutual-exclusion failure carries the two attribute keys, not the formatted message string.
- CreateClusterConnectionConfiguration: its contract says that any refused resolution fails the build, but not which error is reported when several reads fail. The body reads in source order and reports the first.

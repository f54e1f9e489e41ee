/**
  The part of the management model (jboss-dmr `ModelNode`) that the cluster-connection
  handler touches: attribute keys, attribute values, a node as a map from key to value,
  and the `asXxx` conversions the handler applies to resolved values.
 */
module Dmr {
  import opened Wrappers

  const TWO_31: int := 0x8000_0000
  const TWO_32: int := 0x1_0000_0000

  predicate IsInt32(x: int) {
    -TWO_31 <= x < TWO_31
  }

  /** Java `int` and `long`. */
  type Int32 = x: int | IsInt32(x)
  type Int64 = x: int | -0x8000_0000_0000_0000 <= x < 0x8000_0000_0000_0000

  /** A Java `double`, carried as its IEEE 754 bit pattern and never interpreted. */
  datatype Double = Double(bits: bv64)

  /**
    The cluster-connection attributes the handler names. `ClusterConnectionConnectors`
    (the attribute `populateModel` tests) and `StaticConnectors` (the key
    `getStaticConnectors` reads) are kept as two keys: how they relate is defined
    outside this model.
   */
  datatype Attr =
    | ClusterConnectionConnectors
    | StaticConnectors
    | DiscoveryGroupName
    | ClusterConnectionAddress
    | ConnectorRef
    | RetryInterval
    | UseDuplicateDetection
    | ForwardWhenNoConsumers
    | MaxHops
    | ConfirmationWindowSize
    | AllowDirectConnectionsOnly
    | MinLargeMessageSize
    | CheckPeriod
    | ConnectionTtl
    | CallTimeout
    | ReconnectAttempts
    | MaxRetryInterval
    | RetryIntervalMultiplier

  /** A value held by a model node. `Undefined` is a node that exists but is not defined. */
  datatype Value =
    | Undefined
    | Str(s: string)
    | Int(i: Int32)
    | Long(l: Int64)
    | Bool(b: bool)
    | Dbl(d: Double)
    | List(items: seq<Value>)

  /** A resource model node: attribute key to value. A key that is absent reads as undefined. */
  type Store = map<Attr, Value>

  /** The failures the handler can report. */
  datatype Error =
    /** Both topology strategies were named by the add operation. */
    | MutuallyExclusive(staticAttr: Attr, discoveryAttr: Attr)
    /** The injected validator or resolver refused the attribute's value. */
    | InvalidAttribute(attr: Attr)
    /** A value of the wrong kind was read with an `asXxx` conversion. */
    | ConversionFailed(attr: Attr)

  /** `node.get(a)`: the value under `a`, undefined when the key is missing. */
  function Get(s: Store, a: Attr): (v: Value)
    ensures a !in s ==> v == Undefined
    ensures a in s ==> v == s[a]
  {
    if a in s then s[a] else Undefined
  }

  /** `node.hasDefined(a)`. */
  predicate HasDefined(s: Store, a: Attr) {
    a in s && !s[a].Undefined?
  }

  /** Java's `(int)` cast of a `long`: keeps the low 32 bits as a two's complement number. */
  function Narrow(l: Int64): (r: Int32)
    ensures (r - l) % TWO_32 == 0
    ensures IsInt32(l) ==> r == l
  {
    var m := l % TWO_32;
    if m < TWO_31 then m else m - TWO_32
  }

  /** `asString()`. Reading a non-string value is modelled as a conversion failure. */
  function AsString(a: Attr, v: Value): (r: Result<string, Error>)
    ensures r.Success? <==> v.Str?
    ensures r.Success? ==> v == Str(r.value)
    ensures r.Failure? ==> r.error == ConversionFailed(a)
  {
    if v.Str? then Success(v.s) else Failure(ConversionFailed(a))
  }

  /** `asInt()`: an int reads as itself, a long is narrowed as by Java's `(int)` cast. */
  function AsInt(a: Attr, v: Value): (r: Result<Int32, Error>)
    ensures r.Success? <==> v.Int? || v.Long?
    ensures v.Int? ==> r == Success(v.i)
    ensures v.Long? ==> r.Success? && (r.value - v.l) % TWO_32 == 0
    ensures v.Long? && IsInt32(v.l) ==> r == Success(v.l)
    ensures r.Failure? ==> r.error == ConversionFailed(a)
  {
    match v
    case Int(i) => Success(i)
    case Long(l) => Success(Narrow(l))
    case _ => Failure(ConversionFailed(a))
  }

  /** `asLong()`: an int is widened, a long reads as itself. */
  function AsLong(a: Attr, v: Value): (r: Result<Int64, Error>)
    ensures r.Success? <==> v.Int? || v.Long?
    ensures v.Int? ==> r == Success(v.i)
    ensures v.Long? ==> r == Success(v.l)
    ensures r.Failure? ==> r.error == ConversionFailed(a)
  {
    match v
    case Int(i) => Success(i)
    case Long(l) => Success(l)
    case _ => Failure(ConversionFailed(a))
  }

  /** `asBoolean()`. */
  function AsBool(a: Attr, v: Value): (r: Result<bool, Error>)
    ensures r.Success? <==> v.Bool?
    ensures r.Success? ==> v == Bool(r.value)
    ensures r.Failure? ==> r.error == ConversionFailed(a)
  {
    if v.Bool? then Success(v.b) else Failure(ConversionFailed(a))
  }

  /** `asDouble()`. */
  function AsDouble(a: Attr, v: Value): (r: Result<Double, Error>)
    ensures r.Success? <==> v.Dbl?
    ensures r.Success? ==> v == Dbl(r.value)
    ensures r.Failure? ==> r.error == ConversionFailed(a)
  {
    if v.Dbl? then Success(v.d) else Failure(ConversionFailed(a))
  }
}

/**
 Capability negotiation: what `BackendSession.hello` grants and accepts, and what the
 transport then makes of the answer.
*/
module Negotiation {
  import opened Json
  import opened Wire

  const PROTOCOL := "chatgpt." + "browser_control." + "backend_request." + "v1"

  datatype Identity = Identity(
    backendSessionId: string,
    packageName: string,
    packageVersion: string,
    runtimeVersion: string,
    buildDigest: string)

  datatype StreamingCaps = StreamingCaps(modes: seq<string>, tokenDeltas: bool)
  datatype RequestIdCaps = RequestIdCaps(required: bool, scope: string)
  datatype MultiplexingCaps = MultiplexingCaps(unary: bool, streams: bool)
  datatype CancellationCaps = CancellationCaps(supported: bool, requests: bool, streams: bool)
  datatype TabCaps = TabCaps(
    stableProviderIdentity: bool,
    stableBrowserIdentity: bool,
    stableTabIdentity: bool,
    coordinationScope: string,
    authoritativeClaim: bool,
    fencing: bool,
    concurrentTabs: bool,
    stableIdentity: bool,
    coordination: bool,
    concurrent: bool)

  /** `BackendCapabilities`; its runtime is always "node" and its protocol version `PROTOCOL`. */
  datatype Caps = Caps(
    identity: Identity,
    supportedProtocolVersions: seq<string>,
    commands: seq<string>,
    transports: seq<string>,
    streaming: StreamingCaps,
    requestIds: RequestIdCaps,
    multiplexing: MultiplexingCaps,
    cancellation: CancellationCaps,
    tabs: TabCaps)

  // ----- the grant: `intersectCapabilities`

  function Kept(base: seq<string>, requested: Read): seq<string> {
    if base == [] then []
    else (if Includes(requested, base[0]) then [base[0]] else []) + Kept(base[1..], requested)
  }

  function GrantList(base: seq<string>, requested: Read): seq<string> {
    if IsArray(requested) && Kept(base, requested) != [] then Kept(base, requested) else base
  }

  /** A flag is granted unless it is declined; cancellation only when it is asked for. */
  function GrantFlag(base: bool, requested: Read): bool {
    base && !Is(requested, false)
  }

  function GrantAsked(base: bool, requested: Read): bool {
    base && Is(requested, true)
  }

  function GrantScope(base: string, requested: Read): string {
    if requested.None? || Says(requested, base) then base else "none"
  }

  function GrantStreaming(base: StreamingCaps, r: Read): StreamingCaps {
    StreamingCaps(GrantList(base.modes, Get(r, Modes)), GrantFlag(base.tokenDeltas, Get(r, TokenDeltas)))
  }

  function GrantRequestIds(base: RequestIdCaps, r: Read): RequestIdCaps {
    RequestIdCaps(GrantFlag(base.required, Get(r, Required)), GrantScope(base.scope, Get(r, Scope)))
  }

  function GrantMultiplexing(base: MultiplexingCaps, r: Read): MultiplexingCaps {
    MultiplexingCaps(GrantFlag(base.unary, Get(r, UnaryFlag)), GrantFlag(base.streams, Get(r, StreamsFlag)))
  }

  function GrantCancellation(base: CancellationCaps, r: Read): CancellationCaps {
    CancellationCaps(GrantAsked(base.supported, Get(r, Supported)), GrantAsked(base.requests, Get(r, Requests)),
                     GrantAsked(base.streams, Get(r, StreamsFlag)))
  }

  function GrantTabs(base: TabCaps, r: Read): TabCaps {
    var provider := GrantFlag(base.stableProviderIdentity, Get(r, StableProviderIdentity));
    var browser := GrantFlag(base.stableBrowserIdentity, Get(r, StableBrowserIdentity));
    var tab := GrantFlag(base.stableTabIdentity, Get(r, StableTabIdentity));
    var scope := GrantScope(base.coordinationScope, Get(r, CoordinationScope));
    var concurrent := GrantFlag(base.concurrentTabs, Get(r, ConcurrentTabs));
    TabCaps(provider, browser, tab, scope,
            GrantFlag(base.authoritativeClaim, Get(r, AuthoritativeClaim)),
            GrantFlag(base.fencing, Get(r, Fencing)),
            concurrent,
            provider && browser && tab, scope != "none", concurrent)
  }

  function Grant(base: Caps, requested: Read): Caps {
    if !IsRecord(requested) then base
    else
      Caps(base.identity,
           GrantList(base.supportedProtocolVersions, Get(requested, SupportedProtocolVersions)),
           GrantList(base.commands, Get(requested, Commands)),
           GrantList(base.transports, Get(requested, Transports)),
           GrantStreaming(base.streaming, Get(requested, Streaming)),
           GrantRequestIds(base.requestIds, Get(requested, RequestIds)),
           GrantMultiplexing(base.multiplexing, Get(requested, Multiplexing)),
           GrantCancellation(base.cancellation, Get(requested, Cancellation)),
           GrantTabs(base.tabs, Get(requested, Tabs)))
  }

  // ----- the request's shape: `requestedCapabilitiesShapeValid`

  predicate OptionalStrings(v: Read) {
    v.None? || (v.value.Array? && AllStrings(v.value.items))
  }

  predicate OptionalBoolean(v: Read) {
    v.None? || v.value.Bool?
  }

  predicate OptionalIdentity(v: Read) {
    v.None? || IsIdentityField(v)
  }

  predicate ShapeStreaming(v: Read) {
    v.Some? ==> IsRecord(v) && OptionalStrings(Get(v, Modes)) && OptionalBoolean(Get(v, TokenDeltas))
  }

  predicate ShapeRequestIds(v: Read) {
    v.Some? ==>
      && IsRecord(v) && OptionalBoolean(Get(v, Required))
      && (var scope := Get(v, Scope);
          scope.None? || Says(scope, "connection") || Says(scope, "process") || Says(scope, "none"))
  }

  predicate ShapeMultiplexing(v: Read) {
    v.Some? ==> IsRecord(v) && OptionalBoolean(Get(v, UnaryFlag)) && OptionalBoolean(Get(v, StreamsFlag))
  }

  predicate ShapeCancellation(v: Read) {
    v.Some? ==>
      && IsRecord(v) && OptionalBoolean(Get(v, Supported)) && OptionalBoolean(Get(v, Requests))
      && OptionalBoolean(Get(v, StreamsFlag))
  }

  predicate ShapeTabs(v: Read) {
    v.Some? ==>
      && IsRecord(v)
      && OptionalBoolean(Get(v, StableProviderIdentity)) && OptionalBoolean(Get(v, StableBrowserIdentity))
      && OptionalBoolean(Get(v, StableTabIdentity))
      && (var scope := Get(v, CoordinationScope);
          scope.None? || Says(scope, "none") || Says(scope, "process") || Says(scope, "provider"))
      && OptionalBoolean(Get(v, AuthoritativeClaim)) && OptionalBoolean(Get(v, Fencing))
      && OptionalBoolean(Get(v, ConcurrentTabs)) && OptionalBoolean(Get(v, StableIdentity))
      && OptionalBoolean(Get(v, Coordination)) && OptionalBoolean(Get(v, Concurrent))
  }

  predicate ShapeIdentity(r: Read) {
    && OptionalIdentity(Get(r, BackendSessionId)) && OptionalIdentity(Get(r, PackageName))
    && OptionalIdentity(Get(r, PackageVersion)) && OptionalIdentity(Get(r, RuntimeVersion))
    && OptionalIdentity(Get(r, BuildDigest))
    && (Get(r, Runtime).Some? ==> Says(Get(r, Runtime), "node"))
    && (Get(r, ProtocolVersion).Some? ==> Says(Get(r, ProtocolVersion), PROTOCOL))
  }

  predicate ShapeValid(r: Read) {
    && OptionalStrings(Get(r, Commands)) && OptionalStrings(Get(r, Transports))
    && OptionalStrings(Get(r, SupportedProtocolVersions))
    && ShapeIdentity(r)
    && ShapeStreaming(Get(r, Streaming)) && ShapeRequestIds(Get(r, RequestIds))
    && ShapeMultiplexing(Get(r, Multiplexing)) && ShapeCancellation(Get(r, Cancellation))
    && ShapeTabs(Get(r, Tabs))
  }

  // ----- whether the grant is what was asked for: `requestedCapabilitiesSatisfied`

  /** A list is served when it names something, and nothing beyond the base. */
  predicate ListServed(base: seq<string>, v: Read) {
    IsArray(v) ==>
      && v.value.items != []
      && forall i :: 0 <= i < |v.value.items| ==> v.value.items[i].Text? && v.value.items[i].text in base
  }

  predicate FlagServed(granted: bool, v: Read) {
    Is(v, true) ==> granted
  }

  predicate ScopeServed(granted: string, v: Read) {
    v.Some? ==> Says(v, granted)
  }

  /** `requestedDeprecatedTabAliasesConsistent`. */
  predicate AliasesConsistent(v: Read) {
    var hasStable := Get(v, StableProviderIdentity).Some? && Get(v, StableBrowserIdentity).Some?
                     && Get(v, StableTabIdentity).Some?;
    var stable := hasStable && Is(Get(v, StableProviderIdentity), true) && Is(Get(v, StableBrowserIdentity), true)
                  && Is(Get(v, StableTabIdentity), true);
    var coordination := Get(v, CoordinationScope).Some? && !Says(Get(v, CoordinationScope), "none");
    var concurrent := Is(Get(v, ConcurrentTabs), true);
    && (Get(v, StableIdentity).None? || !hasStable || Is(Get(v, StableIdentity), stable))
    && (Get(v, Coordination).None? || Is(Get(v, Coordination), coordination))
    && (Get(v, Concurrent).None? || Is(Get(v, Concurrent), concurrent))
  }

  predicate TabsServed(g: TabCaps, v: Read) {
    v.Some? ==>
      && IsRecord(v)
      && FlagServed(g.stableProviderIdentity, Get(v, StableProviderIdentity))
      && FlagServed(g.stableBrowserIdentity, Get(v, StableBrowserIdentity))
      && FlagServed(g.stableTabIdentity, Get(v, StableTabIdentity))
      && FlagServed(g.authoritativeClaim, Get(v, AuthoritativeClaim))
      && FlagServed(g.fencing, Get(v, Fencing))
      && FlagServed(g.concurrentTabs, Get(v, ConcurrentTabs))
      && FlagServed(g.stableIdentity, Get(v, StableIdentity))
      && FlagServed(g.coordination, Get(v, Coordination))
      && FlagServed(g.concurrent, Get(v, Concurrent))
      && ScopeServed(g.coordinationScope, Get(v, CoordinationScope))
      && AliasesConsistent(v)
  }

  predicate StreamingServed(base: StreamingCaps, g: StreamingCaps, v: Read) {
    v.Some? ==> IsRecord(v) && ListServed(base.modes, Get(v, Modes)) && FlagServed(g.tokenDeltas, Get(v, TokenDeltas))
  }

  predicate RequestIdsServed(g: RequestIdCaps, v: Read) {
    v.Some? ==> IsRecord(v) && FlagServed(g.required, Get(v, Required)) && ScopeServed(g.scope, Get(v, Scope))
  }

  predicate MultiplexingServed(g: MultiplexingCaps, v: Read) {
    v.Some? ==> IsRecord(v) && FlagServed(g.unary, Get(v, UnaryFlag)) && FlagServed(g.streams, Get(v, StreamsFlag))
  }

  predicate CancellationServed(g: CancellationCaps, v: Read) {
    v.Some? ==>
      && IsRecord(v) && FlagServed(g.supported, Get(v, Supported)) && FlagServed(g.requests, Get(v, Requests))
      && FlagServed(g.streams, Get(v, StreamsFlag))
  }

  predicate Satisfied(base: Caps, g: Caps, r: Read) {
    && ShapeValid(r)
    && ListServed(base.commands, Get(r, Commands))
    && ListServed(base.transports, Get(r, Transports))
    && ListServed(base.supportedProtocolVersions, Get(r, SupportedProtocolVersions))
    && StreamingServed(base.streaming, g.streaming, Get(r, Streaming))
    && RequestIdsServed(g.requestIds, Get(r, RequestIds))
    && MultiplexingServed(g.multiplexing, Get(r, Multiplexing))
    && CancellationServed(g.cancellation, Get(r, Cancellation))
    && TabsServed(g.tabs, Get(r, Tabs))
  }

  // ----- hello

  datatype HelloResult = HelloResult(identity: Identity, accepted: bool, capabilities: Caps)

  predicate HelloAccepts(base: Caps, payload: Read) {
    var requested := Get(payload, Capabilities);
    && (Get(payload, ProtocolVersion).None? || Says(Get(payload, ProtocolVersion), PROTOCOL))
    && (requested.Some? ==> IsRecord(requested) && Satisfied(base, Grant(base, requested), requested))
  }

  function Hello(base: Caps, payload: Read): HelloResult {
    HelloResult(base.identity, HelloAccepts(base, payload), Grant(base, Get(payload, Capabilities)))
  }

  // ----- on the wire

  function StreamingJson(c: StreamingCaps): Value {
    Object(map[Modes := Strings(c.modes), TokenDeltas := Bool(c.tokenDeltas)])
  }

  function RequestIdsJson(c: RequestIdCaps): Value {
    Object(map[Required := Bool(c.required), Scope := Text(c.scope)])
  }

  function MultiplexingJson(c: MultiplexingCaps): Value {
    Object(map[UnaryFlag := Bool(c.unary), StreamsFlag := Bool(c.streams)])
  }

  function CancellationJson(c: CancellationCaps): Value {
    Object(map[Supported := Bool(c.supported), Requests := Bool(c.requests), StreamsFlag := Bool(c.streams)])
  }

  function TabsJson(c: TabCaps): Value {
    Object(map[StableProviderIdentity := Bool(c.stableProviderIdentity),
               StableBrowserIdentity := Bool(c.stableBrowserIdentity),
               StableTabIdentity := Bool(c.stableTabIdentity),
               CoordinationScope := Text(c.coordinationScope),
               AuthoritativeClaim := Bool(c.authoritativeClaim),
               Fencing := Bool(c.fencing),
               ConcurrentTabs := Bool(c.concurrentTabs),
               StableIdentity := Bool(c.stableIdentity),
               Coordination := Bool(c.coordination),
               Concurrent := Bool(c.concurrent)])
  }

  function IdentityJson(i: Identity): map<Key, Value> {
    map[BackendSessionId := Text(i.backendSessionId), PackageName := Text(i.packageName),
        PackageVersion := Text(i.packageVersion), Runtime := Text("node"),
        RuntimeVersion := Text(i.runtimeVersion), BuildDigest := Text(i.buildDigest),
        ProtocolVersion := Text(PROTOCOL)]
  }

  function CapsJson(c: Caps): Value {
    Object(IdentityJson(c.identity) +
           map[SupportedProtocolVersions := Strings(c.supportedProtocolVersions),
               Commands := Strings(c.commands),
               Transports := Strings(c.transports),
               Streaming := StreamingJson(c.streaming),
               RequestIds := RequestIdsJson(c.requestIds),
               Multiplexing := MultiplexingJson(c.multiplexing),
               Cancellation := CancellationJson(c.cancellation),
               Tabs := TabsJson(c.tabs)])
  }

  function HelloJson(h: HelloResult): Value {
    Object(IdentityJson(h.identity) + map[Accepted := Bool(h.accepted), Capabilities := CapsJson(h.capabilities)])
  }
}

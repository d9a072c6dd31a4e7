/**
 The grant is sound and a fixed point, an accepted hello serves exactly what was asked,
 and the transport accepts the answer to its own hello.
*/
module NegotiationTheorems {
  import opened Json
  import opened Negotiation
  import opened Wire

  // ----- a grant never exceeds its base

  ghost predicate Sublist(a: seq<string>, b: seq<string>) {
    if a == [] then true
    else if b == [] then false
    else Sublist(a, b[1..]) || (a[0] == b[0] && Sublist(a[1..], b[1..]))
  }

  lemma {:induction false} SublistOfItself(a: seq<string>)
    ensures Sublist(a, a)
  {
    if a != [] {
      SublistOfItself(a[1..]);
    }
  }

  lemma {:induction false} KeptIsSublist(base: seq<string>, requested: Read)
    ensures Sublist(Kept(base, requested), base)
  {
    if base != [] {
      KeptIsSublist(base[1..], requested);
      assert Kept(base, requested) == if Includes(requested, base[0]) then [base[0]] + Kept(base[1..], requested)
                                      else Kept(base[1..], requested);
    }
  }

  lemma {:induction false} KeptMembers(base: seq<string>, requested: Read, word: string)
    ensures word in Kept(base, requested) <==> word in base && Includes(requested, word)
  {
    if base != [] {
      KeptMembers(base[1..], requested, word);
    }
  }

  ghost predicate ListBounded(granted: seq<string>, base: seq<string>) {
    Sublist(granted, base) && (base != [] ==> granted != [])
  }

  lemma GrantListBounded(base: seq<string>, requested: Read)
    ensures ListBounded(GrantList(base, requested), base)
  {
    SublistOfItself(base);
    KeptIsSublist(base, requested);
  }

  predicate ScopeBounded(granted: string, base: string) {
    granted == base || granted == "none"
  }

  predicate TabsBounded(g: TabCaps, base: TabCaps) {
    && (g.stableProviderIdentity ==> base.stableProviderIdentity)
    && (g.stableBrowserIdentity ==> base.stableBrowserIdentity)
    && (g.stableTabIdentity ==> base.stableTabIdentity)
    && ScopeBounded(g.coordinationScope, base.coordinationScope)
    && (g.authoritativeClaim ==> base.authoritativeClaim)
    && (g.fencing ==> base.fencing)
    && (g.concurrentTabs ==> base.concurrentTabs)
  }

  /** No list, flag or scope of the grant goes beyond the base. */
  ghost predicate Bounded(g: Caps, base: Caps) {
    && g.identity == base.identity
    && ListBounded(g.supportedProtocolVersions, base.supportedProtocolVersions)
    && ListBounded(g.commands, base.commands)
    && ListBounded(g.transports, base.transports)
    && ListBounded(g.streaming.modes, base.streaming.modes)
    && (g.streaming.tokenDeltas ==> base.streaming.tokenDeltas)
    && (g.requestIds.required ==> base.requestIds.required)
    && ScopeBounded(g.requestIds.scope, base.requestIds.scope)
    && (g.multiplexing.unary ==> base.multiplexing.unary)
    && (g.multiplexing.streams ==> base.multiplexing.streams)
    && (g.cancellation.supported ==> base.cancellation.supported)
    && (g.cancellation.requests ==> base.cancellation.requests)
    && (g.cancellation.streams ==> base.cancellation.streams)
    && TabsBounded(g.tabs, base.tabs)
  }

  /** The deprecated aliases say what the primary fields say. */
  predicate AliasesAgree(t: TabCaps) {
    && (t.stableIdentity <==> t.stableProviderIdentity && t.stableBrowserIdentity && t.stableTabIdentity)
    && (t.coordination <==> t.coordinationScope != "none")
    && (t.concurrent <==> t.concurrentTabs)
  }

  /** The grant never exceeds the base. Its aliases are computed anew from a request that is
      a record, whatever the base's own say; otherwise the base itself is granted. */
  lemma GrantIsSound(base: Caps, requested: Read)
    ensures Bounded(Grant(base, requested), base)
    ensures AliasesAgree(Grant(base, requested).tabs) <==> IsRecord(requested) || AliasesAgree(base.tabs)
  {
    SublistOfItself(base.supportedProtocolVersions);
    SublistOfItself(base.commands);
    SublistOfItself(base.transports);
    SublistOfItself(base.streaming.modes);
    GrantListBounded(base.supportedProtocolVersions, Get(requested, SupportedProtocolVersions));
    GrantListBounded(base.commands, Get(requested, Commands));
    GrantListBounded(base.transports, Get(requested, Transports));
    GrantListBounded(base.streaming.modes, Get(Get(requested, Streaming), Modes));
    hide Get, Kept, Sublist, GrantList;
  }

  // ----- offering a grant again

  lemma StringsHold(words: seq<string>, word: string)
    ensures Includes(Some(Strings(words)), word) <==> word in words
  {
    var v := Strings(words);
    if word in words {
      var i :| 0 <= i < |words| && words[i] == word;
      assert v.items[i] == Text(word);
    }
  }

  lemma {:induction false} KeptAgain(base: seq<string>, requested: Read, offer: Read)
    requires forall word :: word in base ==> (Includes(offer, word) <==> Includes(requested, word))
    ensures Kept(base, offer) == Kept(base, requested)
  {
    if base != [] {
      KeptAgain(base[1..], requested, offer);
    }
  }

  lemma {:induction false} KeptWhole(base: seq<string>, offer: Read)
    requires forall word :: word in base ==> Includes(offer, word)
    ensures Kept(base, offer) == base
  {
    if base != [] {
      KeptWhole(base[1..], offer);
    }
  }

  lemma ListIsFixed(base: seq<string>, requested: Read)
    requires base != []
    ensures var offer := Some(Strings(GrantList(base, requested)));
      && GrantList(base, offer) == GrantList(base, requested)
      && ListServed(base, offer) && OptionalStrings(offer)
  {
    var granted := GrantList(base, requested);
    var offer := Some(Strings(granted));
    forall word
      ensures Includes(offer, word) <==> word in granted
      ensures word in Kept(base, requested) <==> word in base && Includes(requested, word)
    {
      StringsHold(granted, word);
      KeptMembers(base, requested, word);
    }
    if IsArray(requested) && Kept(base, requested) != [] {
      KeptAgain(base, requested, offer);
    } else {
      KeptWhole(base, offer);
    }
  }

  predicate KnownScope(scope: string) {
    scope == "connection" || scope == "process" || scope == "none"
  }

  predicate KnownCoordination(scope: string) {
    scope == "none" || scope == "process" || scope == "provider"
  }

  lemma RequestIdsAreFixed(base: RequestIdCaps, g: RequestIdCaps)
    requires KnownScope(base.scope) && ScopeBounded(g.scope, base.scope) && (g.required ==> base.required)
    ensures var offer := Some(RequestIdsJson(g));
      && GrantRequestIds(base, offer) == g && ShapeRequestIds(offer)
      && RequestIdsServed(g, offer)
  {
  }

  lemma MultiplexingIsFixed(base: MultiplexingCaps, g: MultiplexingCaps)
    requires (g.unary ==> base.unary) && (g.streams ==> base.streams)
    ensures var offer := Some(MultiplexingJson(g));
      && GrantMultiplexing(base, offer) == g && ShapeMultiplexing(offer)
      && MultiplexingServed(g, offer)
  {
  }

  lemma CancellationIsFixed(base: CancellationCaps, g: CancellationCaps)
    requires (g.supported ==> base.supported) && (g.requests ==> base.requests) && (g.streams ==> base.streams)
    ensures var offer := Some(CancellationJson(g));
      && GrantCancellation(base, offer) == g && ShapeCancellation(offer)
      && CancellationServed(g, offer)
  {
  }

  lemma TabsReadFirst(c: TabCaps)
    ensures var v := Some(TabsJson(c));
      && IsRecord(v)
      && Get(v, StableProviderIdentity) == Some(Bool(c.stableProviderIdentity))
      && Get(v, StableBrowserIdentity) == Some(Bool(c.stableBrowserIdentity))
  {
  }

  lemma TabsReadScope(c: TabCaps)
    ensures var v := Some(TabsJson(c));
      && Get(v, StableTabIdentity) == Some(Bool(c.stableTabIdentity))
      && Get(v, CoordinationScope) == Some(Text(c.coordinationScope))
  {
  }

  lemma TabsReadSecond(c: TabCaps)
    ensures var v := Some(TabsJson(c));
      && Get(v, AuthoritativeClaim) == Some(Bool(c.authoritativeClaim))
      && Get(v, Fencing) == Some(Bool(c.fencing))
      && Get(v, ConcurrentTabs) == Some(Bool(c.concurrentTabs))
  {
  }

  lemma TabsReadThird(c: TabCaps)
    ensures var v := Some(TabsJson(c));
      && Get(v, StableIdentity) == Some(Bool(c.stableIdentity))
      && Get(v, Coordination) == Some(Bool(c.coordination))
      && Get(v, Concurrent) == Some(Bool(c.concurrent))
  {
  }

  lemma TabsRead(c: TabCaps)
    ensures var v := Some(TabsJson(c));
      && IsRecord(v)
      && Get(v, StableProviderIdentity) == Some(Bool(c.stableProviderIdentity))
      && Get(v, StableBrowserIdentity) == Some(Bool(c.stableBrowserIdentity))
      && Get(v, StableTabIdentity) == Some(Bool(c.stableTabIdentity))
      && Get(v, CoordinationScope) == Some(Text(c.coordinationScope))
      && Get(v, AuthoritativeClaim) == Some(Bool(c.authoritativeClaim))
      && Get(v, Fencing) == Some(Bool(c.fencing))
      && Get(v, ConcurrentTabs) == Some(Bool(c.concurrentTabs))
      && Get(v, StableIdentity) == Some(Bool(c.stableIdentity))
      && Get(v, Coordination) == Some(Bool(c.coordination))
      && Get(v, Concurrent) == Some(Bool(c.concurrent))
  {
    TabsReadFirst(c);
    TabsReadScope(c);
    TabsReadSecond(c);
    TabsReadThird(c);
    hide Get, TabsJson;
  }

  lemma TabsAreFixed(base: TabCaps, g: TabCaps)
    requires KnownCoordination(base.coordinationScope)
    requires TabsBounded(g, base) && AliasesAgree(g)
    ensures var offer := Some(TabsJson(g));
      GrantTabs(base, offer) == g && ShapeTabs(offer) && TabsServed(g, offer)
  {
    TabsRead(g);
    hide Get, TabsJson;
  }

  lemma StreamingIsFixed(base: StreamingCaps, r: Read)
    requires base.modes != []
    ensures var g := GrantStreaming(base, r); var offer := Some(StreamingJson(g));
      GrantStreaming(base, offer) == g && ShapeStreaming(offer) && StreamingServed(base, g, offer)
  {
    ListIsFixed(base.modes, Get(r, Modes));
    hide GrantList, ListServed;
  }

  lemma IdentityRead(i: Identity, key: Key)
    ensures key in IdentityJson(i) <==>
      key in {BackendSessionId, PackageName, PackageVersion, Runtime, RuntimeVersion, BuildDigest, ProtocolVersion}
    ensures var v := Some(Object(IdentityJson(i)));
      && Get(v, BackendSessionId) == Some(Text(i.backendSessionId))
      && Get(v, PackageName) == Some(Text(i.packageName))
      && Get(v, PackageVersion) == Some(Text(i.packageVersion))
      && Get(v, Runtime) == Some(Text("node"))
      && Get(v, RuntimeVersion) == Some(Text(i.runtimeVersion))
      && Get(v, BuildDigest) == Some(Text(i.buildDigest))
      && Get(v, ProtocolVersion) == Some(Text(PROTOCOL))
  {
  }

  /** The identity is written next to other properties, which it never shadows. */
  lemma WrittenBeside(i: Identity, rest: map<Key, Value>, key: Key)
    ensures var v := Some(Object(IdentityJson(i) + rest));
      Get(v, key) == if key in rest then Some(rest[key]) else Get(Some(Object(IdentityJson(i))), key)
  {
  }

  function Body(c: Caps): map<Key, Value> {
    map[SupportedProtocolVersions := Strings(c.supportedProtocolVersions),
        Commands := Strings(c.commands),
        Transports := Strings(c.transports),
        Streaming := StreamingJson(c.streaming),
        RequestIds := RequestIdsJson(c.requestIds),
        Multiplexing := MultiplexingJson(c.multiplexing),
        Cancellation := CancellationJson(c.cancellation),
        Tabs := TabsJson(c.tabs)]
  }

  lemma BodyRead(c: Caps)
    ensures var v := Some(Object(Body(c)));
      && Get(v, SupportedProtocolVersions) == Some(Strings(c.supportedProtocolVersions))
      && Get(v, Commands) == Some(Strings(c.commands))
      && Get(v, Transports) == Some(Strings(c.transports))
      && Get(v, Streaming) == Some(StreamingJson(c.streaming))
      && Get(v, RequestIds) == Some(RequestIdsJson(c.requestIds))
      && Get(v, Multiplexing) == Some(MultiplexingJson(c.multiplexing))
      && Get(v, Cancellation) == Some(CancellationJson(c.cancellation))
      && Get(v, Tabs) == Some(TabsJson(c.tabs))
  {
    hide Strings, StreamingJson, RequestIdsJson, MultiplexingJson, CancellationJson, TabsJson;
  }

  lemma CapsRead(c: Caps, key: Key)
    ensures CapsJson(c) == Object(IdentityJson(c.identity) + Body(c))
    ensures Get(Some(CapsJson(c)), key) ==
      if key in Body(c) then Get(Some(Object(Body(c))), key) else Get(Some(Object(IdentityJson(c.identity))), key)
  {
    WrittenBeside(c.identity, Body(c), key);
    hide IdentityJson, Strings, StreamingJson, RequestIdsJson, MultiplexingJson, CancellationJson, TabsJson;
  }

  lemma CapsReadAll(c: Caps)
    ensures var v := Some(CapsJson(c));
      && IsRecord(v)
      && Get(v, SupportedProtocolVersions) == Some(Strings(c.supportedProtocolVersions))
      && Get(v, Commands) == Some(Strings(c.commands))
      && Get(v, Transports) == Some(Strings(c.transports))
      && Get(v, Streaming) == Some(StreamingJson(c.streaming))
      && Get(v, RequestIds) == Some(RequestIdsJson(c.requestIds))
      && Get(v, Multiplexing) == Some(MultiplexingJson(c.multiplexing))
      && Get(v, Cancellation) == Some(CancellationJson(c.cancellation))
      && Get(v, Tabs) == Some(TabsJson(c.tabs))
  {
    BodyRead(c);
    CapsRead(c, SupportedProtocolVersions);
    CapsRead(c, Commands);
    CapsRead(c, Transports);
    CapsRead(c, Streaming);
    CapsRead(c, RequestIds);
    CapsRead(c, Multiplexing);
    CapsRead(c, Cancellation);
    CapsRead(c, Tabs);
    hide Get, IdentityJson, Strings, StreamingJson, RequestIdsJson, MultiplexingJson, CancellationJson, TabsJson, CapsJson;
  }

  lemma CapsReadIdentity(c: Caps)
    ensures var v := Some(CapsJson(c)); var i := c.identity;
      && Get(v, BackendSessionId) == Some(Text(i.backendSessionId))
      && Get(v, PackageName) == Some(Text(i.packageName))
      && Get(v, PackageVersion) == Some(Text(i.packageVersion))
      && Get(v, Runtime) == Some(Text("node"))
      && Get(v, RuntimeVersion) == Some(Text(i.runtimeVersion))
      && Get(v, BuildDigest) == Some(Text(i.buildDigest))
      && Get(v, ProtocolVersion) == Some(Text(PROTOCOL))
  {
    IdentityRead(c.identity, Runtime);
    CapsRead(c, BackendSessionId);
    CapsRead(c, PackageName);
    CapsRead(c, PackageVersion);
    CapsRead(c, Runtime);
    CapsRead(c, RuntimeVersion);
    CapsRead(c, BuildDigest);
    CapsRead(c, ProtocolVersion);
    hide Get, IdentityJson, Strings, StreamingJson, RequestIdsJson, MultiplexingJson, CancellationJson, TabsJson, CapsJson;
  }

  predicate IsIdentity(i: Identity) {
    && IsIdentityText(i.backendSessionId) && IsIdentityText(i.packageName) && IsIdentityText(i.packageVersion)
    && IsIdentityText(i.runtimeVersion) && IsIdentityText(i.buildDigest)
  }

  /** What any backend of this protocol has for a base. */
  predicate WellFormed(base: Caps) {
    && IsIdentity(base.identity)
    && base.supportedProtocolVersions != [] && base.commands != [] && base.transports != [] && base.streaming.modes != []
    && KnownScope(base.requestIds.scope) && KnownCoordination(base.tabs.coordinationScope)
    && AliasesAgree(base.tabs)
  }

  lemma ListsAreFixed(base: Caps, requested: Read)
    requires WellFormed(base)
    ensures var g := Grant(base, requested); var offer := Some(CapsJson(g));
      && GrantList(base.supportedProtocolVersions, Get(offer, SupportedProtocolVersions)) == g.supportedProtocolVersions
      && GrantList(base.commands, Get(offer, Commands)) == g.commands
      && GrantList(base.transports, Get(offer, Transports)) == g.transports
      && ListServed(base.supportedProtocolVersions, Get(offer, SupportedProtocolVersions))
      && ListServed(base.commands, Get(offer, Commands)) && ListServed(base.transports, Get(offer, Transports))
      && OptionalStrings(Get(offer, SupportedProtocolVersions))
      && OptionalStrings(Get(offer, Commands)) && OptionalStrings(Get(offer, Transports))
  {
    CapsReadAll(Grant(base, requested));
    ListIsFixed(base.supportedProtocolVersions, Get(requested, SupportedProtocolVersions));
    ListIsFixed(base.commands, Get(requested, Commands));
    ListIsFixed(base.transports, Get(requested, Transports));
    assert requested.None? || !requested.value.Object? ==> Get(requested, Commands) == None;
    hide Get, GrantList, ListServed, OptionalStrings, CapsJson, Strings;
    hide GrantStreaming, GrantRequestIds, GrantMultiplexing, GrantCancellation, GrantTabs;
  }

  lemma PartsAreFixed(base: Caps, requested: Read)
    requires WellFormed(base)
    ensures var g := Grant(base, requested);
      && GrantStreaming(base.streaming, Some(StreamingJson(g.streaming))) == g.streaming
      && GrantRequestIds(base.requestIds, Some(RequestIdsJson(g.requestIds))) == g.requestIds
      && GrantMultiplexing(base.multiplexing, Some(MultiplexingJson(g.multiplexing))) == g.multiplexing
      && GrantCancellation(base.cancellation, Some(CancellationJson(g.cancellation))) == g.cancellation
      && GrantTabs(base.tabs, Some(TabsJson(g.tabs))) == g.tabs
  {
    var g := Grant(base, requested);
    GrantIsSound(base, requested);
    StreamingIsGranted(base, requested);
    StreamingIsFixed(base.streaming, Get(requested, Streaming));
    RequestIdsAreFixed(base.requestIds, g.requestIds);
    MultiplexingIsFixed(base.multiplexing, g.multiplexing);
    CancellationIsFixed(base.cancellation, g.cancellation);
    TabsAreFixed(base.tabs, g.tabs);
    hide Get, Grant, GrantList, GrantStreaming, GrantRequestIds, GrantMultiplexing, GrantCancellation, GrantTabs;
    hide FlagServed, ScopeServed, ListServed, TabsJson, AliasesAgree, TabsBounded, IsIdentity, Sublist;
  }

  lemma StreamingIsGranted(base: Caps, requested: Read)
    ensures Grant(base, requested).streaming == GrantStreaming(base.streaming, Get(requested, Streaming))
  {
  }

  lemma PartsAreServed(base: Caps, requested: Read)
    requires WellFormed(base)
    ensures var g := Grant(base, requested);
      && ShapeStreaming(Some(StreamingJson(g.streaming)))
      && StreamingServed(base.streaming, g.streaming, Some(StreamingJson(g.streaming)))
      && ShapeRequestIds(Some(RequestIdsJson(g.requestIds)))
      && RequestIdsServed(g.requestIds, Some(RequestIdsJson(g.requestIds)))
      && ShapeMultiplexing(Some(MultiplexingJson(g.multiplexing)))
      && MultiplexingServed(g.multiplexing, Some(MultiplexingJson(g.multiplexing)))
      && ShapeCancellation(Some(CancellationJson(g.cancellation)))
      && CancellationServed(g.cancellation, Some(CancellationJson(g.cancellation)))
      && ShapeTabs(Some(TabsJson(g.tabs))) && TabsServed(g.tabs, Some(TabsJson(g.tabs)))
  {
    var g := Grant(base, requested);
    GrantIsSound(base, requested);
    StreamingIsGranted(base, requested);
    StreamingIsFixed(base.streaming, Get(requested, Streaming));
    RequestIdsAreFixed(base.requestIds, g.requestIds);
    MultiplexingIsFixed(base.multiplexing, g.multiplexing);
    CancellationIsFixed(base.cancellation, g.cancellation);
    TabsAreFixed(base.tabs, g.tabs);
    hide ShapeStreaming, ShapeRequestIds, ShapeMultiplexing, ShapeCancellation, ShapeTabs, Get, Grant;
    hide StreamingServed, RequestIdsServed, MultiplexingServed, CancellationServed, TabsServed;
    hide TabsJson, GrantTabs, AliasesAgree, TabsBounded, IsIdentity, Sublist;
  }

  lemma OfferShape(base: Caps, requested: Read)
    requires WellFormed(base)
    ensures ShapeIdentity(Some(CapsJson(Grant(base, requested))))
  {
    var g := Grant(base, requested);
    assert g.identity == base.identity;
    CapsReadIdentity(g);
    hide Get, Grant, CapsJson;
  }

  /** Offering a grant back is accepted, and granted unchanged: for every base and every
      request, however malformed. */
  lemma GrantIsFixedPoint(base: Caps, requested: Read)
    requires WellFormed(base)
    ensures var g := Grant(base, requested); var offer := Some(CapsJson(g));
      Grant(base, offer) == g && Satisfied(base, Grant(base, offer), offer)
  {
    var g := Grant(base, requested);
    var offer := Some(CapsJson(g));
    assert g.identity == base.identity;
    CapsReadAll(g);
    ListsAreFixed(base, requested);
    PartsAreFixed(base, requested);
    PartsAreServed(base, requested);
    OfferShape(base, requested);
    assert Grant(base, offer) == g by {
      hide Get, GrantList, GrantStreaming, GrantRequestIds, GrantMultiplexing, GrantCancellation, GrantTabs, WellFormed;
      hide ShapeStreaming, ShapeRequestIds, ShapeMultiplexing, ShapeCancellation, ShapeTabs, TabsServed, CapsJson;
      hide FlagServed, ScopeServed, ListServed;
    }
  }

  // ----- what acceptance means

  /** A list that was asked for is granted exactly, and not only in part. */
  ghost predicate ListExact(granted: seq<string>, requested: Read) {
    IsArray(requested) ==> forall word :: word in granted <==> Includes(requested, word)
  }

  /** A flag that was asked for is granted as asked. */
  predicate FlagExact(granted: bool, requested: Read) {
    IsBoolean(requested) ==> requested == Some(Bool(granted))
  }

  ghost predicate ServesExactly(g: Caps, r: Read) {
    && ListExact(g.commands, Get(r, Commands))
    && ListExact(g.transports, Get(r, Transports))
    && ListExact(g.supportedProtocolVersions, Get(r, SupportedProtocolVersions))
    && StreamingExact(g.streaming, Get(r, Streaming))
    && RequestIdsExact(g.requestIds, Get(r, RequestIds))
    && MultiplexingExact(g.multiplexing, Get(r, Multiplexing))
    && CancellationExact(g.cancellation, Get(r, Cancellation))
    && TabsExact(g.tabs, Get(r, Tabs))
  }

  ghost predicate StreamingExact(g: StreamingCaps, v: Read) {
    ListExact(g.modes, Get(v, Modes)) && FlagExact(g.tokenDeltas, Get(v, TokenDeltas))
  }

  predicate RequestIdsExact(g: RequestIdCaps, v: Read) {
    FlagExact(g.required, Get(v, Required)) && ScopeServed(g.scope, Get(v, Scope))
  }

  predicate MultiplexingExact(g: MultiplexingCaps, v: Read) {
    FlagExact(g.unary, Get(v, UnaryFlag)) && FlagExact(g.streams, Get(v, StreamsFlag))
  }

  predicate CancellationExact(g: CancellationCaps, v: Read) {
    && FlagExact(g.supported, Get(v, Supported)) && FlagExact(g.requests, Get(v, Requests))
    && FlagExact(g.streams, Get(v, StreamsFlag))
  }

  predicate TabsExact(g: TabCaps, v: Read) {
    && FlagExact(g.stableProviderIdentity, Get(v, StableProviderIdentity))
    && FlagExact(g.stableBrowserIdentity, Get(v, StableBrowserIdentity))
    && FlagExact(g.stableTabIdentity, Get(v, StableTabIdentity))
    && ScopeServed(g.coordinationScope, Get(v, CoordinationScope))
    && FlagExact(g.authoritativeClaim, Get(v, AuthoritativeClaim))
    && FlagExact(g.fencing, Get(v, Fencing))
    && FlagExact(g.concurrentTabs, Get(v, ConcurrentTabs))
  }

  lemma ServedListIsExact(base: seq<string>, v: Read)
    requires ListServed(base, v)
    ensures ListExact(GrantList(base, v), v)
  {
    if IsArray(v) {
      forall word
        ensures word in Kept(base, v) <==> Includes(v, word)
      {
        KeptMembers(base, v, word);
        if Includes(v, word) {
          var i :| 0 <= i < |v.value.items| && v.value.items[i] == Text(word);
        }
      }
      assert Includes(v, v.value.items[0].text);
    }
  }

  lemma ServedPartsAreExact(base: Caps, r: Read)
    ensures StreamingServed(base.streaming, GrantStreaming(base.streaming, r), r) ==>
      StreamingExact(GrantStreaming(base.streaming, r), r)
    ensures RequestIdsServed(GrantRequestIds(base.requestIds, r), r) ==>
      RequestIdsExact(GrantRequestIds(base.requestIds, r), r)
    ensures MultiplexingServed(GrantMultiplexing(base.multiplexing, r), r) ==>
      MultiplexingExact(GrantMultiplexing(base.multiplexing, r), r)
    ensures CancellationServed(GrantCancellation(base.cancellation, r), r) ==>
      CancellationExact(GrantCancellation(base.cancellation, r), r)
  {
    if ListServed(base.streaming.modes, Get(r, Modes)) {
      ServedListIsExact(base.streaming.modes, Get(r, Modes));
    }
    hide ListServed, ListExact, GrantList;
  }

  /** An accepted hello grants what was requested, no less and no more. */
  lemma AcceptedServesExactly(base: Caps, payload: Read)
    requires Hello(base, payload).accepted
    ensures ServesExactly(Hello(base, payload).capabilities, Get(payload, Capabilities))
  {
    var r := Get(payload, Capabilities);
    if IsRecord(r) && Satisfied(base, Grant(base, r), r) {
      ServedListIsExact(base.commands, Get(r, Commands));
      ServedListIsExact(base.transports, Get(r, Transports));
      ServedListIsExact(base.supportedProtocolVersions, Get(r, SupportedProtocolVersions));
      ServedPartsAreExact(base, Get(r, Streaming));
      ServedPartsAreExact(base, Get(r, RequestIds));
      ServedPartsAreExact(base, Get(r, Multiplexing));
      ServedPartsAreExact(base, Get(r, Cancellation));
      ServedTabsAreExact(base.tabs, Get(r, Tabs));
      hide Get, ListServed, ListExact, GrantList, ShapeValid, GrantStreaming, GrantMultiplexing, GrantCancellation;
      hide GrantRequestIds, GrantTabs, StreamingServed, RequestIdsServed, MultiplexingServed, CancellationServed;
      hide TabsServed, StreamingExact, RequestIdsExact, MultiplexingExact, CancellationExact, TabsExact;
    } else {
      NothingAsked(Grant(base, r), r);
    }
  }

  lemma NothingAsked(g: Caps, r: Read)
    requires r.None?
    ensures ServesExactly(g, r)
  {
  }

  lemma ServedTabsAreExact(base: TabCaps, v: Read)
    requires TabsServed(GrantTabs(base, v), v)
    ensures TabsExact(GrantTabs(base, v), v)
  {
    hide AliasesConsistent;
  }

  // ----- the deprecated aliases

  predicate AliasesExact(g: TabCaps, v: Read) {
    && FlagExact(g.stableIdentity, Get(v, StableIdentity))
    && FlagExact(g.coordination, Get(v, Coordination))
    && FlagExact(g.concurrent, Get(v, Concurrent))
  }

  predicate Declines(v: Read, key: Key) {
    Is(Get(v, key), false)
  }

  /** An alias that is declined, although the base has what it stands for, is declined
      together with a primary field. */
  predicate AliasesCovered(base: TabCaps, v: Read) {
    && (Declines(v, StableIdentity) && base.stableProviderIdentity && base.stableBrowserIdentity && base.stableTabIdentity ==>
          Declines(v, StableProviderIdentity) || Declines(v, StableBrowserIdentity) || Declines(v, StableTabIdentity))
    && (Declines(v, Coordination) && base.coordinationScope != "none" ==> Get(v, CoordinationScope).Some?)
    && (Declines(v, Concurrent) && base.concurrentTabs ==> Declines(v, ConcurrentTabs))
  }

  lemma ServedAliases(base: TabCaps, v: Read)
    requires ShapeTabs(v) && TabsServed(GrantTabs(base, v), v)
    ensures AliasesExact(GrantTabs(base, v), v) <==> AliasesCovered(base, v)
  {
    hide Get;
    if v.None? {
      NothingThere(v);
    }
  }

  lemma NothingThere(v: Read)
    requires v.None?
    ensures forall key :: Get(v, key).None?
  {
  }

  /** The grant computes the aliases from the primary fields, so an alias that is declined
      alone is granted all the same: an accepted hello serves the aliases as requested if
      and only if none is declined alone against what the base has. */
  lemma AliasesServedExactly(base: Caps, payload: Read)
    requires Hello(base, payload).accepted
    ensures var tabs := Get(Get(payload, Capabilities), Tabs);
      AliasesExact(Hello(base, payload).capabilities.tabs, tabs) <==> AliasesCovered(base.tabs, tabs)
  {
    hide Get, AliasesExact, AliasesCovered, GrantTabs, TabsServed, ShapeTabs, GrantList;
    var r := Get(payload, Capabilities);
    if r.Some? {
      ServedAliases(base.tabs, Get(r, Tabs));
    } else {
      NoAliases(base.tabs, r);
    }
  }

  lemma NoAliases(g: TabCaps, r: Read)
    requires r.None?
    ensures AliasesExact(g, Get(r, Tabs)) && AliasesCovered(g, Get(r, Tabs))
  {
  }

  const STABILITY_DECLINED: Value := Object(map[StableIdentity := Bool(false)])
  const ONLY_TABS: Value := Object(map[Tabs := STABILITY_DECLINED])

  /** For a base with all three stable identities, declining the alias alone is accepted and
      granted nevertheless. */
  lemma DeclinedAliasIsGranted(base: Caps)
    requires base.tabs.stableProviderIdentity && base.tabs.stableBrowserIdentity && base.tabs.stableTabIdentity
    ensures var hello := Hello(base, Some(Object(map[Capabilities := ONLY_TABS])));
      hello.accepted && hello.capabilities.tabs.stableIdentity
  {
    hide ShapeTabs, TabsServed, GrantTabs, Satisfied, Grant, Get, ONLY_TABS, STABILITY_DECLINED;
    OnlyTabsRead();
    DeclinedTabs(base.tabs);
    OnlyTabsAsked(base, Some(ONLY_TABS));
  }

  lemma OnlyTabsRead()
    ensures var payload := Some(Object(map[Capabilities := ONLY_TABS]));
      Get(payload, Capabilities) == Some(ONLY_TABS) && Get(payload, ProtocolVersion).None?
    ensures IsRecord(Some(ONLY_TABS)) && Get(Some(ONLY_TABS), Tabs) == Some(STABILITY_DECLINED)
    ensures forall key :: key != Tabs ==> Get(Some(ONLY_TABS), key).None?
  {
  }

  lemma DeclinedTabs(base: TabCaps)
    requires base.stableProviderIdentity && base.stableBrowserIdentity && base.stableTabIdentity
    ensures var v := Some(STABILITY_DECLINED); var g := GrantTabs(base, v);
      g.stableIdentity && TabsServed(g, v) && ShapeTabs(v)
  {
  }

  /** What is not asked for is served. */
  lemma OnlyTabsAsked(base: Caps, r: Read)
    requires IsRecord(r) && forall key :: key != Tabs ==> Get(r, key).None?
    ensures Grant(base, r).tabs == GrantTabs(base.tabs, Get(r, Tabs))
    ensures ShapeTabs(Get(r, Tabs)) && TabsServed(GrantTabs(base.tabs, Get(r, Tabs)), Get(r, Tabs)) ==>
      Satisfied(base, Grant(base, r), r)
  {
    hide Get, ShapeTabs, TabsServed, Grant, ShapeIdentity, OptionalStrings, ListServed;
    hide ShapeStreaming, ShapeRequestIds, ShapeMultiplexing, ShapeCancellation;
    hide StreamingServed, RequestIdsServed, MultiplexingServed, CancellationServed;
    var g := Grant(base, r);
    GrantedTabs(base, r);
    UnaskedIdentity(r);
    UnaskedList(base.commands, Get(r, Commands));
    UnaskedList(base.transports, Get(r, Transports));
    UnaskedList(base.supportedProtocolVersions, Get(r, SupportedProtocolVersions));
    UnaskedParts(base, g, Get(r, Streaming), Get(r, RequestIds), Get(r, Multiplexing), Get(r, Cancellation));
  }

  lemma GrantedTabs(base: Caps, r: Read)
    requires IsRecord(r)
    ensures Grant(base, r).tabs == GrantTabs(base.tabs, Get(r, Tabs))
  {
    hide Get, GrantTabs, GrantList, GrantStreaming, GrantRequestIds, GrantMultiplexing, GrantCancellation;
  }

  lemma UnaskedIdentity(r: Read)
    requires forall key :: key != Tabs ==> Get(r, key).None?
    ensures ShapeIdentity(r)
  {
    hide Get;
  }

  lemma UnaskedList(base: seq<string>, v: Read)
    requires v.None?
    ensures OptionalStrings(v) && ListServed(base, v)
  {
  }

  lemma UnaskedParts(base: Caps, g: Caps, streaming: Read, requestIds: Read, multiplexing: Read, cancellation: Read)
    requires streaming.None? && requestIds.None? && multiplexing.None? && cancellation.None?
    ensures ShapeStreaming(streaming) && StreamingServed(base.streaming, g.streaming, streaming)
    ensures ShapeRequestIds(requestIds) && RequestIdsServed(g.requestIds, requestIds)
    ensures ShapeMultiplexing(multiplexing) && MultiplexingServed(g.multiplexing, multiplexing)
    ensures ShapeCancellation(cancellation) && CancellationServed(g.cancellation, cancellation)
  {
  }
}

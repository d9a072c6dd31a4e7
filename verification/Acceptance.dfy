/**
 When `BackendSession.hello` accepts, said of the request alone: no grant, no check of a
 shape, only what each property of the payload must be.
*/
module Acceptance {
  import opened Json
  import opened Negotiation
  import opened Wire

  /** A flag may be left out, declined, or asked for if there is one to give. */
  predicate MayAsk(base: bool, v: Read) {
    v == None || v == Some(Bool(false)) || (v == Some(Bool(true)) && base)
  }

  /** A list may be left out; otherwise it names something, and nothing the base has not. */
  ghost predicate MayList(base: seq<string>, v: Read) {
    v == None || exists words: seq<string> :: v == Some(Strings(words)) && words != [] && forall w :: w in words ==> w in base
  }

  /** A scope may be left out; otherwise it is one of the words for scopes, and either the
      base's own or none. */
  predicate MayScope(base: string, words: set<string>, v: Read) {
    v == None || exists w :: w in words && v == Some(Text(w)) && (w == base || w == "none")
  }

  predicate MayName(v: Read) {
    v == None || (v.value.Text? && IsIdentityText(v.value.text))
  }

  /** A part may be left out, or is an object. */
  predicate MayHold(v: Read) {
    v == None || v.value.Object?
  }

  predicate Asks(v: Read) {
    v == Some(Bool(true))
  }

  /** The alias of three flags: it goes with all of them, and not against any. */
  predicate MayAlias(base: TabCaps, v: Read) {
    var alias, provider, browser, tab := Get(v, StableIdentity),
      Get(v, StableProviderIdentity), Get(v, StableBrowserIdentity), Get(v, StableTabIdentity);
    || alias == None
    || (alias == Some(Bool(true))
        && base.stableProviderIdentity && base.stableBrowserIdentity && base.stableTabIdentity
        && provider != Some(Bool(false)) && browser != Some(Bool(false)) && tab != Some(Bool(false)))
    || (alias == Some(Bool(false)) && !(Asks(provider) && Asks(browser) && Asks(tab)))
  }

  /** The other two repeat what is asked for under the new name. */
  predicate MayRepeat(v: Read, asked: bool) {
    v == None || v == Some(Bool(asked))
  }

  predicate PrimaryServable(base: TabCaps, v: Read) {
    && MayAsk(base.stableProviderIdentity, Get(v, StableProviderIdentity))
    && MayAsk(base.stableBrowserIdentity, Get(v, StableBrowserIdentity))
    && MayAsk(base.stableTabIdentity, Get(v, StableTabIdentity))
    && MayAsk(base.authoritativeClaim, Get(v, AuthoritativeClaim))
    && MayAsk(base.fencing, Get(v, Fencing))
    && MayAsk(base.concurrentTabs, Get(v, ConcurrentTabs))
  }

  predicate AliasServable(base: TabCaps, v: Read) {
    && MayAlias(base, v)
    && MayRepeat(Get(v, Coordination), Get(v, CoordinationScope) != None && Get(v, CoordinationScope) != Some(Text("none")))
    && MayRepeat(Get(v, Concurrent), Asks(Get(v, ConcurrentTabs)))
  }

  predicate TabsServable(base: TabCaps, v: Read) {
    && MayHold(v) && PrimaryServable(base, v) && AliasServable(base, v)
    && MayScope(base.coordinationScope, {"none", "process", "provider"}, Get(v, CoordinationScope))
  }

  ghost predicate StreamingServable(base: StreamingCaps, v: Read) {
    MayHold(v) && MayList(base.modes, Get(v, Modes)) && MayAsk(base.tokenDeltas, Get(v, TokenDeltas))
  }

  predicate RequestIdsServable(base: RequestIdCaps, v: Read) {
    && MayHold(v) && MayAsk(base.required, Get(v, Required))
    && MayScope(base.scope, {"connection", "process", "none"}, Get(v, Scope))
  }

  predicate MultiplexingServable(base: MultiplexingCaps, v: Read) {
    MayHold(v) && MayAsk(base.unary, Get(v, UnaryFlag)) && MayAsk(base.streams, Get(v, StreamsFlag))
  }

  predicate CancellationServable(base: CancellationCaps, v: Read) {
    && MayHold(v) && MayAsk(base.supported, Get(v, Supported)) && MayAsk(base.requests, Get(v, Requests))
    && MayAsk(base.streams, Get(v, StreamsFlag))
  }

  predicate IdentityServable(r: Read) {
    && MayName(Get(r, BackendSessionId)) && MayName(Get(r, PackageName)) && MayName(Get(r, PackageVersion))
    && MayName(Get(r, RuntimeVersion)) && MayName(Get(r, BuildDigest))
    && (Get(r, Runtime) == None || Get(r, Runtime) == Some(Text("node")))
    && (Get(r, ProtocolVersion) == None || Get(r, ProtocolVersion) == Some(Text(PROTOCOL)))
  }

  ghost predicate CapabilitiesServable(base: Caps, r: Read) {
    && IdentityServable(r)
    && MayList(base.commands, Get(r, Commands))
    && MayList(base.transports, Get(r, Transports))
    && MayList(base.supportedProtocolVersions, Get(r, SupportedProtocolVersions))
    && StreamingServable(base.streaming, Get(r, Streaming))
    && RequestIdsServable(base.requestIds, Get(r, RequestIds))
    && MultiplexingServable(base.multiplexing, Get(r, Multiplexing))
    && CancellationServable(base.cancellation, Get(r, Cancellation))
    && TabsServable(base.tabs, Get(r, Tabs))
  }

  ghost predicate Servable(base: Caps, payload: Read) {
    var version, r := Get(payload, ProtocolVersion), Get(payload, Capabilities);
    && (version == None || version == Some(Text(PROTOCOL)))
    && MayHold(r) && (r != None ==> CapabilitiesServable(base, r))
  }

  // ----- part by part

  lemma ListIs(base: seq<string>, v: Read)
    ensures OptionalStrings(v) && ListServed(base, v) <==> MayList(base, v)
  {
    if OptionalStrings(v) && ListServed(base, v) && v.Some? {
      var items := v.value.items;
      var words := seq(|items|, i requires 0 <= i < |items| => items[i].text);
      assert Strings(words).items == items;
      forall w | w in words
        ensures w in base
      {
        var i :| 0 <= i < |words| && words[i] == w;
        assert items[i].text in base;
      }
      assert words != [] && v == Some(Strings(words));
    }
  }

  lemma ScopesAre(base: string, v: Read)
    ensures (v.None? || Says(v, "connection") || Says(v, "process") || Says(v, "none")) && ScopeServed(GrantScope(base, v), v)
       <==> MayScope(base, {"connection", "process", "none"}, v)
    ensures (v.None? || Says(v, "none") || Says(v, "process") || Says(v, "provider")) && ScopeServed(GrantScope(base, v), v)
       <==> MayScope(base, {"none", "process", "provider"}, v)
  {
  }

  lemma NamesAre(v: Read)
    ensures OptionalIdentity(v) <==> MayName(v)
  {
  }

  lemma IdentityIs(r: Read)
    ensures ShapeIdentity(r) <==> IdentityServable(r)
  {
    hide Get, OptionalIdentity, MayName;
    NamesAre(Get(r, BackendSessionId));
    NamesAre(Get(r, PackageName));
    NamesAre(Get(r, PackageVersion));
    NamesAre(Get(r, RuntimeVersion));
    NamesAre(Get(r, BuildDigest));
  }

  lemma NothingInside(v: Read, key: Key)
    ensures v.None? ==> Get(v, key) == None
  {
  }

  lemma NothingListed(base: seq<string>)
    ensures MayList(base, None)
  {
  }

  lemma StreamingIs(base: StreamingCaps, v: Read)
    ensures ShapeStreaming(v) && StreamingServed(base, GrantStreaming(base, v), v) <==> StreamingServable(base, v)
  {
    ListIs(base.modes, Get(v, Modes));
    NothingListed(base.modes);
    NothingInside(v, Modes);
    NothingInside(v, TokenDeltas);
    hide Get, ListServed, MayList, OptionalStrings, GrantList;
  }

  lemma RequestIdsIs(base: RequestIdCaps, v: Read)
    ensures ShapeRequestIds(v) && RequestIdsServed(GrantRequestIds(base, v), v) <==> RequestIdsServable(base, v)
  {
    ScopesAre(base.scope, Get(v, Scope));
    NothingInside(v, Scope);
    NothingInside(v, Required);
    hide Get, MayScope, GrantScope, ScopeServed, Says;
    if v.None? {
      assert ScopeServed(GrantScope(base.scope, None), None) by {
        NothingScoped(base.scope);
      }
    }
  }

  lemma NothingScoped(base: string)
    ensures MayScope(base, {"connection", "process", "none"}, None) && MayScope(base, {"none", "process", "provider"}, None)
    ensures ScopeServed(GrantScope(base, None), None)
  {
  }

  lemma MultiplexingIs(base: MultiplexingCaps, v: Read)
    ensures ShapeMultiplexing(v) && MultiplexingServed(GrantMultiplexing(base, v), v) <==> MultiplexingServable(base, v)
  {
    NothingInside(v, UnaryFlag);
    NothingInside(v, StreamsFlag);
    hide Get;
  }

  lemma CancellationIs(base: CancellationCaps, v: Read)
    ensures ShapeCancellation(v) && CancellationServed(GrantCancellation(base, v), v) <==> CancellationServable(base, v)
  {
    NothingInside(v, Supported);
    NothingInside(v, Requests);
    NothingInside(v, StreamsFlag);
    hide Get;
  }

  lemma FlagIs(base: bool, v: Read)
    ensures OptionalBoolean(v) && FlagServed(GrantFlag(base, v), v) <==> MayAsk(base, v)
  {
  }

  predicate PrimaryServed(g: TabCaps, v: Read) {
    && OptionalBoolean(Get(v, StableProviderIdentity)) && FlagServed(g.stableProviderIdentity, Get(v, StableProviderIdentity))
    && OptionalBoolean(Get(v, StableBrowserIdentity)) && FlagServed(g.stableBrowserIdentity, Get(v, StableBrowserIdentity))
    && OptionalBoolean(Get(v, StableTabIdentity)) && FlagServed(g.stableTabIdentity, Get(v, StableTabIdentity))
    && OptionalBoolean(Get(v, AuthoritativeClaim)) && FlagServed(g.authoritativeClaim, Get(v, AuthoritativeClaim))
    && OptionalBoolean(Get(v, Fencing)) && FlagServed(g.fencing, Get(v, Fencing))
    && OptionalBoolean(Get(v, ConcurrentTabs)) && FlagServed(g.concurrentTabs, Get(v, ConcurrentTabs))
  }

  lemma PrimaryIs(base: TabCaps, v: Read)
    ensures PrimaryServed(GrantTabs(base, v), v) <==> PrimaryServable(base, v)
  {
    FlagIs(base.stableProviderIdentity, Get(v, StableProviderIdentity));
    FlagIs(base.stableBrowserIdentity, Get(v, StableBrowserIdentity));
    FlagIs(base.stableTabIdentity, Get(v, StableTabIdentity));
    FlagIs(base.authoritativeClaim, Get(v, AuthoritativeClaim));
    FlagIs(base.fencing, Get(v, Fencing));
    FlagIs(base.concurrentTabs, Get(v, ConcurrentTabs));
    hide Get, OptionalBoolean, FlagServed, GrantFlag, MayAsk, GrantScope;
  }

  predicate AliasServed(g: TabCaps, v: Read) {
    && OptionalBoolean(Get(v, StableIdentity)) && FlagServed(g.stableIdentity, Get(v, StableIdentity))
    && OptionalBoolean(Get(v, Coordination)) && FlagServed(g.coordination, Get(v, Coordination))
    && OptionalBoolean(Get(v, Concurrent)) && FlagServed(g.concurrent, Get(v, Concurrent))
    && AliasesConsistent(v)
  }

  predicate StableConsistent(v: Read) {
    var provider, browser, tab := Get(v, StableProviderIdentity), Get(v, StableBrowserIdentity), Get(v, StableTabIdentity);
    || Get(v, StableIdentity).None? || provider.None? || browser.None? || tab.None?
    || Is(Get(v, StableIdentity), Is(provider, true) && Is(browser, true) && Is(tab, true))
  }

  lemma StableAliasIs(base: TabCaps, v: Read)
    requires PrimaryServable(base, v)
    ensures var alias := Get(v, StableIdentity);
      OptionalBoolean(alias) && FlagServed(GrantTabs(base, v).stableIdentity, alias) && StableConsistent(v) <==> MayAlias(base, v)
  {
    hide Get, GrantScope;
  }

  lemma RepeatedAre(base: TabCaps, v: Read)
    requires MayAsk(base.concurrentTabs, Get(v, ConcurrentTabs))
    requires MayScope(base.coordinationScope, {"none", "process", "provider"}, Get(v, CoordinationScope))
    ensures var g, scope, coordination := GrantTabs(base, v), Get(v, CoordinationScope), Get(v, Coordination);
      && (var asked := scope.Some? && !Says(scope, "none");
          OptionalBoolean(coordination) && FlagServed(g.coordination, coordination) && (coordination.None? || Is(coordination, asked))
          <==> MayRepeat(coordination, asked))
    ensures var g, concurrent, asked := GrantTabs(base, v), Get(v, Concurrent), Is(Get(v, ConcurrentTabs), true);
      OptionalBoolean(concurrent) && FlagServed(g.concurrent, concurrent) && (concurrent.None? || Is(concurrent, asked))
      <==> MayRepeat(concurrent, asked)
  {
    hide Get;
  }

  lemma AliasIs(base: TabCaps, v: Read)
    requires PrimaryServable(base, v)
    requires MayScope(base.coordinationScope, {"none", "process", "provider"}, Get(v, CoordinationScope))
    ensures AliasServed(GrantTabs(base, v), v) <==> AliasServable(base, v)
  {
    StableAliasIs(base, v);
    RepeatedAre(base, v);
    hide Get, GrantTabs, OptionalBoolean, FlagServed, MayRepeat, MayAlias, MayScope, MayAsk;
  }

  lemma TabsSplit(base: TabCaps, v: Read)
    requires IsRecord(v)
    ensures var g, scope := GrantTabs(base, v), Get(v, CoordinationScope);
      ShapeTabs(v) && TabsServed(g, v) <==>
        && PrimaryServed(g, v) && AliasServed(g, v)
        && (scope.None? || Says(scope, "none") || Says(scope, "process") || Says(scope, "provider"))
        && ScopeServed(GrantScope(base.coordinationScope, scope), scope)
  {
    hide Get, OptionalBoolean, FlagServed, GrantFlag, GrantScope, ScopeServed, Says, AliasesConsistent;
  }

  lemma NoTabs(base: TabCaps, v: Read)
    requires v.None?
    ensures ShapeTabs(v) && TabsServed(GrantTabs(base, v), v) && TabsServable(base, v)
  {
    assert forall key :: Get(v, key) == None;
    NothingScoped(base.coordinationScope);
    hide Get, MayScope;
  }

  lemma TabsAre(base: TabCaps, v: Read)
    ensures ShapeTabs(v) && TabsServed(GrantTabs(base, v), v) <==> TabsServable(base, v)
  {
    if v.None? {
      NoTabs(base, v);
    } else if IsRecord(v) {
      TabsSplit(base, v);
      PrimaryIs(base, v);
      ScopesAre(base.coordinationScope, Get(v, CoordinationScope));
      if PrimaryServable(base, v) && MayScope(base.coordinationScope, {"none", "process", "provider"}, Get(v, CoordinationScope)) {
        AliasIs(base, v);
      }
      hide Get, ShapeTabs, TabsServed, PrimaryServed, AliasServed, MayAsk, MayScope, MayAlias, MayRepeat, GrantTabs, GrantScope;
      hide ScopeServed, Says;
    }
  }

  // ----- the whole

  lemma CapabilitiesAre(base: Caps, r: Read)
    requires IsRecord(r)
    ensures Satisfied(base, Grant(base, r), r) <==> CapabilitiesServable(base, r)
  {
    IdentityIs(r);
    ListIs(base.commands, Get(r, Commands));
    ListIs(base.transports, Get(r, Transports));
    ListIs(base.supportedProtocolVersions, Get(r, SupportedProtocolVersions));
    StreamingIs(base.streaming, Get(r, Streaming));
    RequestIdsIs(base.requestIds, Get(r, RequestIds));
    MultiplexingIs(base.multiplexing, Get(r, Multiplexing));
    CancellationIs(base.cancellation, Get(r, Cancellation));
    TabsAre(base.tabs, Get(r, Tabs));
    hide Get, OptionalStrings, ListServed, MayList, GrantList, ShapeIdentity, IdentityServable, ShapeStreaming, StreamingServed;
    hide StreamingServable, ShapeRequestIds, RequestIdsServed, RequestIdsServable, ShapeMultiplexing, MultiplexingServed;
    hide MultiplexingServable, ShapeCancellation, CancellationServed, CancellationServable, ShapeTabs, TabsServed, TabsServable;
    hide GrantStreaming, GrantRequestIds, GrantMultiplexing, GrantCancellation, GrantTabs;
  }

  /** A hello is accepted if and only if it names no other protocol, and asks, if at all, in
      a well-formed way for nothing the base does not have. */
  lemma AcceptedExactly(base: Caps, payload: Read)
    ensures Hello(base, payload).accepted <==> Servable(base, payload)
  {
    var r := Get(payload, Capabilities);
    if IsRecord(r) {
      CapabilitiesAre(base, r);
    }
    hide Get, Satisfied, CapabilitiesServable, Grant;
  }

  // ----- what is granted besides

  /** What most flags are: given unless declined. */
  predicate OptOut(granted: bool, base: bool, v: Read) {
    granted <==> base && v != Some(Bool(false))
  }

  /** What those of cancellation are: given only if asked for. */
  predicate OptIn(granted: bool, base: bool, v: Read) {
    granted <==> base && v == Some(Bool(true))
  }

  predicate ScopeGiven(granted: string, base: string, v: Read) {
    if v == None then granted == base else v == Some(Text(granted))
  }

  predicate ListGiven(granted: seq<string>, base: seq<string>, v: Read) {
    v == None ==> granted == base
  }

  predicate PartsGiven(g: Caps, base: Caps, r: Read) {
    var streaming, ids, multiplexing := Get(r, Streaming), Get(r, RequestIds), Get(r, Multiplexing);
    var cancellation, tabs := Get(r, Cancellation), Get(r, Tabs);
    && OptOut(g.streaming.tokenDeltas, base.streaming.tokenDeltas, Get(streaming, TokenDeltas))
    && OptOut(g.requestIds.required, base.requestIds.required, Get(ids, Required))
    && ScopeGiven(g.requestIds.scope, base.requestIds.scope, Get(ids, Scope))
    && OptOut(g.multiplexing.unary, base.multiplexing.unary, Get(multiplexing, UnaryFlag))
    && OptOut(g.multiplexing.streams, base.multiplexing.streams, Get(multiplexing, StreamsFlag))
    && OptIn(g.cancellation.supported, base.cancellation.supported, Get(cancellation, Supported))
    && OptIn(g.cancellation.requests, base.cancellation.requests, Get(cancellation, Requests))
    && OptIn(g.cancellation.streams, base.cancellation.streams, Get(cancellation, StreamsFlag))
    && TabsGiven(g.tabs, base.tabs, tabs)
  }

  predicate TabsGiven(g: TabCaps, base: TabCaps, v: Read) {
    && OptOut(g.stableProviderIdentity, base.stableProviderIdentity, Get(v, StableProviderIdentity))
    && OptOut(g.stableBrowserIdentity, base.stableBrowserIdentity, Get(v, StableBrowserIdentity))
    && OptOut(g.stableTabIdentity, base.stableTabIdentity, Get(v, StableTabIdentity))
    && OptOut(g.authoritativeClaim, base.authoritativeClaim, Get(v, AuthoritativeClaim))
    && OptOut(g.fencing, base.fencing, Get(v, Fencing))
    && OptOut(g.concurrentTabs, base.concurrentTabs, Get(v, ConcurrentTabs))
    && ScopeGiven(g.coordinationScope, base.coordinationScope, Get(v, CoordinationScope))
  }

  predicate ListsGiven(g: Caps, base: Caps, r: Read) {
    && ListGiven(g.commands, base.commands, Get(r, Commands))
    && ListGiven(g.transports, base.transports, Get(r, Transports))
    && ListGiven(g.supportedProtocolVersions, base.supportedProtocolVersions, Get(r, SupportedProtocolVersions))
    && ListGiven(g.streaming.modes, base.streaming.modes, Get(Get(r, Streaming), Modes))
  }

  lemma ScopesServable(base: Caps, r: Read)
    requires IsRecord(r) && CapabilitiesServable(base, r)
    ensures ScopeGiven(Grant(base, r).requestIds.scope, base.requestIds.scope, Get(Get(r, RequestIds), Scope))
    ensures ScopeGiven(Grant(base, r).tabs.coordinationScope, base.tabs.coordinationScope, Get(Get(r, Tabs), CoordinationScope))
  {
    hide Get, IdentityServable, MayList, StreamingServable, MultiplexingServable, CancellationServable, PrimaryServable, AliasServable;
    hide GrantList;
  }

  lemma TabsAreGiven(base: TabCaps, v: Read)
    requires ScopeGiven(GrantTabs(base, v).coordinationScope, base.coordinationScope, Get(v, CoordinationScope))
    ensures TabsGiven(GrantTabs(base, v), base, v)
  {
    hide Get, ScopeGiven, GrantScope;
  }

  lemma PartsAreGiven(base: Caps, r: Read)
    requires IsRecord(r) && CapabilitiesServable(base, r)
    ensures PartsGiven(Grant(base, r), base, r)
  {
    ScopesServable(base, r);
    TabsAreGiven(base.tabs, Get(r, Tabs));
    hide Get, CapabilitiesServable, ScopeGiven, GrantScope, GrantTabs, TabsGiven, GrantList;
  }

  lemma ListsAreGiven(base: Caps, r: Read)
    requires IsRecord(r)
    ensures ListsGiven(Grant(base, r), base, r)
  {
    hide Get, GrantTabs, GrantRequestIds, GrantMultiplexing, GrantCancellation, Kept;
  }

  /** What an accepted request does not mention is granted as the base has it, except
      cancellation, which is granted only if asked for; a request without capabilities is
      granted the whole base. */
  lemma GrantedExactly(base: Caps, payload: Read)
    requires Hello(base, payload).accepted
    ensures var g, r := Hello(base, payload).capabilities, Get(payload, Capabilities);
      if r == None then g == base else PartsGiven(g, base, r) && ListsGiven(g, base, r)
  {
    var r := Get(payload, Capabilities);
    AcceptedExactly(base, payload);
    hide Get, CapabilitiesServable, PartsGiven, ListsGiven, HelloAccepts;
    if r != None {
      PartsAreGiven(base, r);
      ListsAreGiven(base, r);
      hide Grant;
    }
  }
}

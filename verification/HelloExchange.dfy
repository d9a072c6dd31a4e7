/**
 The hello as both ends see it: the base this backend advertises, the request the
 transport sends, and `isNegotiatedHello`, the transport's check of the answer.
*/
module HelloExchange {
  import opened Json
  import opened Negotiation
  import opened NegotiationTheorems
  import opened Wire

  const BACKEND_AND_RUNNER_COMMANDS: seq<string> := [
    "backend.version", "backend.health", "backend.capabilities", "backend.hello", "runner.run",
    "runner.plan", "runner.stream"
  ]

  const OTHER_COMMANDS: seq<string> := [
    "responses.create", "ask", "askInThread", "askWithFiles", "askAndDownload", "runMessages", "openThread",
    "readLatest", "copyLatest", "downloadLatest", "runPlan", "doctor", "createReport", "reports.create",
    "reports.redact", "reports.summarize", "commands", "describe", "help", "session.bootstrap",
    "experience.detect", "experience.open", "configuration.inspect", "configuration.apply", "work.start",
    "work.status", "work.wait", "work.steer", "work.readLatest", "threads.new", "threads.search",
    "threads.open", "messages.compose", "messages.submit", "messages.ask", "messages.wait",
    "messages.readLatest", "messages.status", "messages.stop", "messages.waitAndRead",
    "artifacts.listLatest", "artifacts.wait", "artifacts.downloadLatest", "files.preflight", "files.attach",
    "files.downloadLatest", "projects.sources.list", "projects.sources.planAdd", "projects.sources.add",
    "modes.set", "modes.get", "tools.select", "response.copy", "operations.submit", "operations.collect",
    "operations.inspect", "operations.control"
  ]

  /** `backendCommands`, in order. */
  const COMMANDS: seq<string> := BACKEND_AND_RUNNER_COMMANDS + OTHER_COMMANDS

  /** `backendCapabilities`. */
  function Base(identity: Identity): Caps {
    Caps(identity, [PROTOCOL], COMMANDS, ["stdio"],
         StreamingCaps(["ndjson"], false), RequestIdCaps(true, "connection"), MultiplexingCaps(true, true),
         CancellationCaps(false, false, false),
         TabCaps(false, false, false, "none", false, false, false, false, false, false))
  }

  /** The commands the transport cannot do without. */
  const REQUIRED_COMMANDS: seq<string> :=
    ["backend.hello", "backend.version", "backend.capabilities", "backend.health", "runner.run", "runner.stream"]

  function OwnRequest(): Value {
    Object(map[
      Commands := Strings(REQUIRED_COMMANDS),
      Transports := Strings(["stdio"]),
      Streaming := StreamingJson(StreamingCaps(["ndjson"], false)),
      SupportedProtocolVersions := Strings([PROTOCOL]),
      RequestIds := RequestIdsJson(RequestIdCaps(true, "connection")),
      Multiplexing := MultiplexingJson(MultiplexingCaps(true, true)),
      Cancellation := CancellationJson(CancellationCaps(false, false, false)),
      Tabs := TabsJson(TabCaps(false, false, false, "none", false, false, false, false, false, false))])
  }

  /** The payload of the transport's own hello. */
  function OwnHello(): Value {
    Object(map[ProtocolVersion := Text(PROTOCOL), Capabilities := OwnRequest()])
  }

  // ----- `isNegotiatedHello`

  predicate HasIdentity(v: Read) {
    && IsIdentityField(Get(v, BackendSessionId)) && IsIdentityField(Get(v, PackageName))
    && IsIdentityField(Get(v, PackageVersion)) && IsIdentityField(Get(v, Runtime))
    && IsIdentityField(Get(v, RuntimeVersion)) && IsIdentityField(Get(v, BuildDigest))
  }

  predicate SameIdentity(v: Read, c: Read) {
    && Get(v, ProtocolVersion) == Get(c, ProtocolVersion)
    && Get(v, BackendSessionId) == Get(c, BackendSessionId)
    && Get(v, PackageName) == Get(c, PackageName)
    && Get(v, PackageVersion) == Get(c, PackageVersion)
    && Get(v, Runtime) == Get(c, Runtime)
    && Get(v, RuntimeVersion) == Get(c, RuntimeVersion)
    && Get(v, BuildDigest) == Get(c, BuildDigest)
  }

  predicate CommandsCovered(supported: Read, requested: Read) {
    && IsArray(supported) && supported.value.items != [] && AllStrings(supported.value.items)
    && IsArray(requested)
    && forall i :: 0 <= i < |requested.value.items| ==>
         requested.value.items[i].Text? && requested.value.items[i] in supported.value.items
  }

  predicate OneOf(v: Value, a: string, b: string) {
    v == Text(a) || v == Text(b)
  }

  predicate TransportsUsable(v: Read) {
    && IsArray(v)
    && (forall i :: 0 <= i < |v.value.items| ==> OneOf(v.value.items[i], "stdio", "http"))
    && Includes(v, "stdio")
  }

  predicate StreamingUsable(v: Read) {
    && IsRecord(v) && IsArray(Get(v, Modes))
    && (var modes := Get(v, Modes).value.items;
        forall i :: 0 <= i < |modes| ==> OneOf(modes[i], "ndjson", "sse"))
    && Includes(Get(v, Modes), "ndjson")
    && Is(Get(v, TokenDeltas), false)
  }

  predicate RequestIdsUsable(v: Read) {
    && IsRecord(v) && Is(Get(v, Required), true)
    && (Says(Get(v, Scope), "connection") || Says(Get(v, Scope), "process"))
  }

  predicate MultiplexingUsable(v: Read) {
    IsRecord(v) && IsBoolean(Get(v, UnaryFlag)) && IsBoolean(Get(v, StreamsFlag))
  }

  predicate CancellationUsable(v: Read) {
    IsRecord(v) && IsBoolean(Get(v, Supported)) && IsBoolean(Get(v, Requests)) && IsBoolean(Get(v, StreamsFlag))
  }

  /** `consistentDeprecatedTabAliases`. */
  predicate TabAliasesConsistent(v: Read) {
    var stable := Is(Get(v, StableProviderIdentity), true) && Is(Get(v, StableBrowserIdentity), true)
                  && Is(Get(v, StableTabIdentity), true);
    && (Get(v, StableIdentity).None? || Is(Get(v, StableIdentity), stable))
    && (Get(v, Coordination).None? || Is(Get(v, Coordination), !Says(Get(v, CoordinationScope), "none")))
    && (Get(v, Concurrent).None? || Is(Get(v, Concurrent), Is(Get(v, ConcurrentTabs), true)))
  }

  predicate TabsUsable(v: Read) {
    && IsRecord(v)
    && IsBoolean(Get(v, StableProviderIdentity)) && IsBoolean(Get(v, StableBrowserIdentity))
    && IsBoolean(Get(v, StableTabIdentity))
    && (var scope := Get(v, CoordinationScope);
        Says(scope, "none") || Says(scope, "process") || Says(scope, "provider"))
    && IsBoolean(Get(v, AuthoritativeClaim)) && IsBoolean(Get(v, Fencing)) && IsBoolean(Get(v, ConcurrentTabs))
    && TabAliasesConsistent(v)
  }

  predicate IsNegotiatedHello(value: Read, payload: Read) {
    var c := Get(value, Capabilities);
    var requested := Get(payload, Capabilities);
    && IsRecord(value) && Is(Get(value, Accepted), true) && IsRecord(c)
    && HasIdentity(value) && IsIdentityField(Get(value, ProtocolVersion))
    && Says(Get(c, ProtocolVersion), PROTOCOL)
    && SameIdentity(value, c)
    && Includes(Get(c, SupportedProtocolVersions), PROTOCOL)
    && HasIdentity(c)
    && IsRecord(requested)
    && CommandsCovered(Get(c, Commands), Get(requested, Commands))
    && TransportsUsable(Get(c, Transports))
    && StreamingUsable(Get(c, Streaming))
    && RequestIdsUsable(Get(c, RequestIds))
    && MultiplexingUsable(Get(c, Multiplexing))
    && CancellationUsable(Get(c, Cancellation))
    && TabsUsable(Get(c, Tabs))
  }

  /** `negotiatedMultiplexing`. */
  predicate NegotiatedMultiplexing(value: Read) {
    var m := Get(Get(value, Capabilities), Multiplexing);
    Is(Get(m, UnaryFlag), true) && Is(Get(m, StreamsFlag), true)
  }

  // ----- the base

  lemma BaseIsWellFormed(identity: Identity)
    requires IsIdentity(identity)
    ensures WellFormed(Base(identity))
  {
  }

  // ----- what the transport makes of an answer

  lemma HelloRead(h: HelloResult)
    ensures var v := Some(HelloJson(h)); var i := h.identity;
      && IsRecord(v)
      && Get(v, Accepted) == Some(Bool(h.accepted))
      && Get(v, Capabilities) == Some(CapsJson(h.capabilities))
      && Get(v, BackendSessionId) == Some(Text(i.backendSessionId))
      && Get(v, PackageName) == Some(Text(i.packageName))
      && Get(v, PackageVersion) == Some(Text(i.packageVersion))
      && Get(v, Runtime) == Some(Text("node"))
      && Get(v, RuntimeVersion) == Some(Text(i.runtimeVersion))
      && Get(v, BuildDigest) == Some(Text(i.buildDigest))
      && Get(v, ProtocolVersion) == Some(Text(PROTOCOL))
  {
    hide CapsJson;
  }

  lemma NodeIsText()
    ensures IsIdentityText("node")
  {
  }

  predicate IsPlain(text: string) {
    forall i :: 0 <= i < |text| ==> '!' <= text[i] <= '~'
  }

  lemma PlainIsText(text: string)
    requires IsPlain(text) && 0 < |text| <= MAX_IDENTITY_FIELD_LENGTH
    ensures IsIdentityText(text)
  {
    forall i | 0 <= i < |text|
      ensures !IsControlCharacter(text[i]) && !IsBlank(text[i])
    {
    }
  }

  lemma PlainPieces(a: string, b: string)
    requires IsPlain(a) && IsPlain(b)
    ensures IsPlain(a + b)
  {
  }

  lemma ProtocolIsText()
    ensures IsIdentityText(PROTOCOL)
  {
    PlainPieces("chatgpt.", "browser_control.");
    PlainPieces("chatgpt." + "browser_control.", "backend_request.");
    PlainPieces("chatgpt." + "browser_control." + "backend_request.", "v1");
    hide IsPlain;
    PlainIsText(PROTOCOL);
  }

  lemma IdentitiesMatch(h: HelloResult)
    requires IsIdentity(h.identity) && h.capabilities.identity == h.identity
    ensures var v := Some(HelloJson(h)); var c := Some(CapsJson(h.capabilities));
      HasIdentity(v) && HasIdentity(c) && SameIdentity(v, c) && IsIdentityField(Get(v, ProtocolVersion))
      && Says(Get(c, ProtocolVersion), PROTOCOL)
  {
    HelloRead(h);
    CapsReadIdentity(h.capabilities);
    NodeIsText();
    ProtocolIsText();
    hide Get, HelloJson, CapsJson, IsIdentityText;
  }

  lemma OneWordIsGranted(word: string, requested: Read)
    ensures GrantList([word], requested) == [word]
  {
    assert Kept([word][1..], requested) == [];
  }

  lemma OneWordUsable(word: string)
    ensures var v := Strings([word]); v.items == [Text(word)] && Includes(Some(v), word)
  {
    StringsHold([word], word);
  }

  lemma ListsUsable(identity: Identity, requested: Read)
    ensures var g := Grant(Base(identity), requested);
      && Includes(Some(Strings(g.supportedProtocolVersions)), PROTOCOL)
      && TransportsUsable(Some(Strings(g.transports)))
      && StreamingUsable(Some(StreamingJson(g.streaming)))
  {
    OneWordIsGranted(PROTOCOL, Get(requested, SupportedProtocolVersions));
    OneWordIsGranted("stdio", Get(requested, Transports));
    OneWordIsGranted("ndjson", Get(Get(requested, Streaming), Modes));
    OneWordUsable(PROTOCOL);
    OneWordUsable("stdio");
    OneWordUsable("ndjson");
    hide GrantList, Strings, GrantTabs, GrantRequestIds, GrantMultiplexing, GrantCancellation;
  }

  lemma TabsAreUsable(identity: Identity, requested: Read)
    ensures TabsUsable(Some(TabsJson(Grant(Base(identity), requested).tabs)))
  {
    var g := Grant(Base(identity), requested);
    GrantIsSound(Base(identity), requested);
    TabsRead(g.tabs);
    hide Get, TabsJson, GrantList, GrantStreaming, GrantRequestIds, GrantMultiplexing, GrantCancellation, GrantTabs, Grant;
    hide ListBounded;
  }

  lemma FlagsUsable(g: Caps)
    ensures MultiplexingUsable(Some(MultiplexingJson(g.multiplexing)))
    ensures CancellationUsable(Some(CancellationJson(g.cancellation)))
    ensures RequestIdsUsable(Some(RequestIdsJson(g.requestIds))) <==>
      g.requestIds.required && (g.requestIds.scope == "connection" || g.requestIds.scope == "process")
  {
  }

  lemma CommandsAreCovered(base: Caps, requested: Read)
    requires base.commands != [] && ListServed(base.commands, requested)
    ensures CommandsCovered(Some(Strings(GrantList(base.commands, requested))), requested) <==> IsArray(requested)
  {
    var granted := GrantList(base.commands, requested);
    ServedListIsExact(base.commands, requested);
    if IsArray(requested) {
      var items := requested.value.items;
      forall i | 0 <= i < |items|
        ensures items[i].Text? && items[i] in Strings(granted).items
      {
        StringsHold(granted, items[i].text);
        assert Includes(requested, items[i].text);
      }
    }
  }

  // ----- the answer of any backend

  predicate OnlyOf(words: seq<string>, a: string, b: string) {
    forall w :: w in words ==> w == a || w == b
  }

  /** What an answer must say, of itself and of the commands asked for. */
  predicate Serves(h: HelloResult, commands: Read) {
    var c := h.capabilities;
    && h.accepted && IsIdentity(h.identity) && c.identity == h.identity
    && PROTOCOL in c.supportedProtocolVersions
    && c.commands != [] && IsArray(commands)
    && (forall v :: v in commands.value.items ==> v.Text? && v.text in c.commands)
    && OnlyOf(c.transports, "stdio", "http") && "stdio" in c.transports
    && OnlyOf(c.streaming.modes, "ndjson", "sse") && "ndjson" in c.streaming.modes && !c.streaming.tokenDeltas
    && c.requestIds.required && (c.requestIds.scope == "connection" || c.requestIds.scope == "process")
    && KnownCoordination(c.tabs.coordinationScope) && AliasesAgree(c.tabs)
  }

  lemma IdentitiesMatchExactly(h: HelloResult)
    ensures var v := Some(HelloJson(h)); var c := Some(CapsJson(h.capabilities));
      HasIdentity(v) && HasIdentity(c) && SameIdentity(v, c) <==> IsIdentity(h.identity) && h.capabilities.identity == h.identity
  {
    HelloRead(h);
    CapsReadIdentity(h.capabilities);
    NodeIsText();
    hide Get, HelloJson, CapsJson, IsIdentityText;
  }

  lemma WordsUsable(words: seq<string>, a: string, b: string)
    ensures Strings(words).Array?
    ensures var v := Strings(words);
      (forall i :: 0 <= i < |v.items| ==> OneOf(v.items[i], a, b)) && Includes(Some(v), a) <==> OnlyOf(words, a, b) && a in words
  {
    var v := Strings(words);
    StringsHold(words, a);
    if forall i :: 0 <= i < |v.items| ==> OneOf(v.items[i], a, b) {
      forall w | w in words
        ensures w == a || w == b
      {
        var i :| 0 <= i < |words| && words[i] == w;
        assert OneOf(v.items[i], a, b);
      }
    }
    assert forall i :: 0 <= i < |words| ==> v.items[i] == Text(words[i]) && words[i] in words;
  }

  lemma CommandsCoveredExactly(commands: seq<string>, requested: Read)
    ensures CommandsCovered(Some(Strings(commands)), requested) <==>
      && commands != [] && IsArray(requested)
      && forall v :: v in requested.value.items ==> v.Text? && v.text in commands
  {
    if IsArray(requested) {
      var items := requested.value.items;
      forall i | 0 <= i < |items| && items[i].Text?
        ensures items[i] in Strings(commands).items <==> items[i].text in commands
      {
        StringsHold(commands, items[i].text);
      }
      assert forall i :: 0 <= i < |items| ==> items[i] in items;
    }
  }

  lemma StreamingUsableExactly(c: StreamingCaps)
    ensures StreamingUsable(Some(StreamingJson(c))) <==> OnlyOf(c.modes, "ndjson", "sse") && "ndjson" in c.modes && !c.tokenDeltas
  {
    WordsUsable(c.modes, "ndjson", "sse");
    hide Strings, Includes, OneOf, OnlyOf;
  }

  lemma TabsUsableExactly(c: TabCaps)
    ensures TabsUsable(Some(TabsJson(c))) <==> KnownCoordination(c.coordinationScope) && AliasesAgree(c)
  {
    TabsRead(c);
    hide Get, TabsJson;
  }

  /** Whatever backend wrote the answer: the transport goes on with it if and only if it is
      accepted, keeps to one identity, and advertises this protocol, every command asked
      for, its transport and framing, and ids that belong to a connection or a process. */
  lemma AnyAnswerExactly(h: HelloResult, payload: Read)
    ensures IsNegotiatedHello(Some(HelloJson(h)), payload) <==>
      IsRecord(Get(payload, Capabilities)) && Serves(h, Get(Get(payload, Capabilities), Commands))
  {
    var c := h.capabilities;
    HelloRead(h);
    CapsReadAll(c);
    CapsReadIdentity(c);
    IdentitiesMatchExactly(h);
    ProtocolIsText();
    StringsHold(c.supportedProtocolVersions, PROTOCOL);
    CommandsCoveredExactly(c.commands, Get(Get(payload, Capabilities), Commands));
    WordsUsable(c.transports, "stdio", "http");
    StreamingUsableExactly(c.streaming);
    TabsUsableExactly(c.tabs);
    FlagsUsable(c);
    hide Get, HelloJson, CapsJson, Strings, StreamingJson, RequestIdsJson, MultiplexingJson, CancellationJson, TabsJson;
    hide CommandsCovered, TabsUsable, StreamingUsable, Includes, OneOf, OnlyOf, AliasesAgree, KnownCoordination;
    hide RequestIdsUsable, MultiplexingUsable, CancellationUsable, HasIdentity, SameIdentity, IsIdentity, IsIdentityText;
  }

  /** Everything but the commands and the request ids of an answer is always usable. */
  lemma WhatIsChecked(identity: Identity, payload: Read)
    requires IsIdentity(identity)
    ensures var h := Hello(Base(identity), payload); var r := Get(payload, Capabilities);
      IsNegotiatedHello(Some(HelloJson(h)), payload) <==>
        && h.accepted && IsRecord(r)
        && CommandsCovered(Some(Strings(h.capabilities.commands)), Get(r, Commands))
        && RequestIdsUsable(Some(RequestIdsJson(h.capabilities.requestIds)))
  {
    var h := Hello(Base(identity), payload);
    HelloRead(h);
    CapsReadAll(h.capabilities);
    assert h.capabilities.identity == h.identity;
    IdentitiesMatch(h);
    ListsUsable(identity, Get(payload, Capabilities));
    TabsAreUsable(identity, Get(payload, Capabilities));
    FlagsUsable(h.capabilities);
    hide Get, HelloJson, CapsJson, Strings, StreamingJson, RequestIdsJson, MultiplexingJson, CancellationJson, TabsJson;
    hide Grant, HelloAccepts, CommandsCovered, TabsUsable, StreamingUsable, TransportsUsable;
    hide RequestIdsUsable, MultiplexingUsable, CancellationUsable, HasIdentity, SameIdentity, IsIdentity;
  }

  lemma ScopeIsUsable(identity: Identity, r: Read)
    requires var g := Grant(Base(identity), r); ScopeServed(g.requestIds.scope, Get(Get(r, RequestIds), Scope))
    requires IsRecord(r)
    ensures RequestIdsUsable(Some(RequestIdsJson(Grant(Base(identity), r).requestIds))) <==>
      !Is(Get(Get(r, RequestIds), Required), false) && !Says(Get(Get(r, RequestIds), Scope), "none")
  {
    FlagsUsable(Grant(Base(identity), r));
    hide Get, GrantList, GrantTabs, GrantStreaming, GrantMultiplexing, GrantCancellation, RequestIdsUsable, RequestIdsJson;
  }

  /** Which of this backend's answers its transport would go on with: exactly the accepted
      ones whose request named its commands and neither declined request ids nor their scope. */
  lemma NegotiatedExactly(identity: Identity, payload: Read)
    requires IsIdentity(identity)
    ensures var h := Hello(Base(identity), payload); var r := Get(payload, Capabilities);
      IsNegotiatedHello(Some(HelloJson(h)), payload) <==>
        && h.accepted && IsRecord(r) && IsArray(Get(r, Commands))
        && !Is(Get(Get(r, RequestIds), Required), false) && !Says(Get(Get(r, RequestIds), Scope), "none")
  {
    var base := Base(identity);
    var h := Hello(base, payload);
    var r := Get(payload, Capabilities);
    WhatIsChecked(identity, payload);
    if h.accepted && IsRecord(r) {
      AcceptedParts(base, r);
      CommandsAreCovered(base, Get(r, Commands));
      ScopeIsUsable(identity, r);
    }
    hide Get, HelloJson, Strings, RequestIdsJson, IsNegotiatedHello;
    hide Satisfied, GrantTabs, GrantList, GrantStreaming, GrantMultiplexing, GrantCancellation, GrantRequestIds;
    hide CommandsCovered, RequestIdsUsable, ListServed, IsIdentity;
  }

  lemma AcceptedParts(base: Caps, r: Read)
    requires IsRecord(r) && Satisfied(base, Grant(base, r), r)
    ensures ListServed(base.commands, Get(r, Commands))
    ensures ScopeServed(Grant(base, r).requestIds.scope, Get(Get(r, RequestIds), Scope))
  {
    hide ListServed, ShapeValid, Grant;
  }

  // ----- the transport's own hello

  lemma RequiredCommandsExist(i: nat)
    requires i < |REQUIRED_COMMANDS|
    ensures REQUIRED_COMMANDS[i] in COMMANDS
  {
    hide OTHER_COMMANDS;
    var core := BACKEND_AND_RUNNER_COMMANDS;
    assert core[0] == "backend.version" && core[1] == "backend.health" && core[2] == "backend.capabilities"
        && core[3] == "backend.hello" && core[4] == "runner.run" && core[6] == "runner.stream";
  }

  lemma OwnRequestRead()
    ensures var v := Some(OwnRequest());
      && IsRecord(v)
      && Get(v, Commands) == Some(Strings(REQUIRED_COMMANDS))
      && Get(v, Transports) == Some(Strings(["stdio"]))
      && Get(v, SupportedProtocolVersions) == Some(Strings([PROTOCOL]))
      && Get(v, Streaming) == Some(StreamingJson(StreamingCaps(["ndjson"], false)))
      && Get(v, RequestIds) == Some(RequestIdsJson(RequestIdCaps(true, "connection")))
      && Get(v, Multiplexing) == Some(MultiplexingJson(MultiplexingCaps(true, true)))
      && Get(v, Cancellation) == Some(CancellationJson(CancellationCaps(false, false, false)))
      && Get(v, Tabs) == Some(TabsJson(TabCaps(false, false, false, "none", false, false, false, false, false, false)))
    ensures var v := Some(OwnRequest());
      && Get(v, BackendSessionId).None? && Get(v, PackageName).None? && Get(v, PackageVersion).None?
      && Get(v, RuntimeVersion).None? && Get(v, BuildDigest).None? && Get(v, Runtime).None? && Get(v, ProtocolVersion).None?
  {
    hide Strings, StreamingJson, RequestIdsJson, MultiplexingJson, CancellationJson, TabsJson;
  }

  lemma SomeWordsAreServed(base: seq<string>, words: seq<string>)
    requires words != [] && forall i :: 0 <= i < |words| ==> words[i] in base
    ensures ListServed(base, Some(Strings(words))) && OptionalStrings(Some(Strings(words)))
  {
  }

  lemma OwnListsAreServed(identity: Identity)
    ensures var base := Base(identity);
      && ListServed(base.commands, Some(Strings(REQUIRED_COMMANDS))) && OptionalStrings(Some(Strings(REQUIRED_COMMANDS)))
      && ListServed(base.transports, Some(Strings(["stdio"]))) && OptionalStrings(Some(Strings(["stdio"])))
      && ListServed(base.supportedProtocolVersions, Some(Strings([PROTOCOL]))) && OptionalStrings(Some(Strings([PROTOCOL])))
  {
    forall i | 0 <= i < |REQUIRED_COMMANDS| ensures REQUIRED_COMMANDS[i] in COMMANDS {
      RequiredCommandsExist(i);
    }
    SomeWordsAreServed(COMMANDS, REQUIRED_COMMANDS);
    SomeWordsAreServed(["stdio"], ["stdio"]);
    SomeWordsAreServed([PROTOCOL], [PROTOCOL]);
    hide ListServed, OptionalStrings, Strings;
  }

  predicate SaysNothingOfIdentity(v: Read) {
    && Get(v, BackendSessionId).None? && Get(v, PackageName).None? && Get(v, PackageVersion).None?
    && Get(v, RuntimeVersion).None? && Get(v, BuildDigest).None? && Get(v, Runtime).None? && Get(v, ProtocolVersion).None?
  }

  predicate AsksForAllFlags(base: Caps, r: Read) {
    && Get(r, Streaming) == Some(StreamingJson(base.streaming))
    && Get(r, RequestIds) == Some(RequestIdsJson(base.requestIds))
    && Get(r, Multiplexing) == Some(MultiplexingJson(base.multiplexing))
    && Get(r, Cancellation) == Some(CancellationJson(base.cancellation))
    && Get(r, Tabs) == Some(TabsJson(base.tabs))
  }

  predicate AsksForSomeWords(base: Caps, r: Read) {
    && ListServed(base.commands, Get(r, Commands)) && OptionalStrings(Get(r, Commands))
    && ListServed(base.transports, Get(r, Transports)) && OptionalStrings(Get(r, Transports))
    && ListServed(base.supportedProtocolVersions, Get(r, SupportedProtocolVersions))
    && OptionalStrings(Get(r, SupportedProtocolVersions))
  }

  predicate ShapedInFull(base: Caps) {
    && ShapeStreaming(Some(StreamingJson(base.streaming)))
    && ShapeRequestIds(Some(RequestIdsJson(base.requestIds)))
    && ShapeMultiplexing(Some(MultiplexingJson(base.multiplexing)))
    && ShapeCancellation(Some(CancellationJson(base.cancellation)))
    && ShapeTabs(Some(TabsJson(base.tabs)))
  }

  predicate ServedInFull(base: Caps) {
    && StreamingServed(base.streaming, base.streaming, Some(StreamingJson(base.streaming)))
    && RequestIdsServed(base.requestIds, Some(RequestIdsJson(base.requestIds)))
    && MultiplexingServed(base.multiplexing, Some(MultiplexingJson(base.multiplexing)))
    && CancellationServed(base.cancellation, Some(CancellationJson(base.cancellation)))
    && TabsServed(base.tabs, Some(TabsJson(base.tabs)))
  }

  predicate GrantedInFull(base: Caps) {
    && GrantStreaming(base.streaming, Some(StreamingJson(base.streaming))) == base.streaming
    && GrantRequestIds(base.requestIds, Some(RequestIdsJson(base.requestIds))) == base.requestIds
    && GrantMultiplexing(base.multiplexing, Some(MultiplexingJson(base.multiplexing))) == base.multiplexing
    && GrantCancellation(base.cancellation, Some(CancellationJson(base.cancellation))) == base.cancellation
    && GrantTabs(base.tabs, Some(TabsJson(base.tabs))) == base.tabs
  }

  lemma UnaskedStreaming(c: StreamingCaps)
    ensures GrantStreaming(c, None) == c
  {
  }

  lemma BaseIsGrantedInFull(base: Caps)
    requires WellFormed(base)
    ensures ShapedInFull(base) && ServedInFull(base) && GrantedInFull(base)
  {
    hide ShapeStreaming, ShapeRequestIds, ShapeMultiplexing, ShapeCancellation, ShapeTabs;
    hide StreamingServed, RequestIdsServed, MultiplexingServed, CancellationServed, ListServed, OptionalStrings, TabsServed;
    hide Get, StreamingJson, RequestIdsJson, MultiplexingJson, CancellationJson, TabsJson, GrantTabs, IsIdentity;
    RequestIdsAreFixed(base.requestIds, base.requestIds);
    MultiplexingIsFixed(base.multiplexing, base.multiplexing);
    CancellationIsFixed(base.cancellation, base.cancellation);
    TabsAreFixed(base.tabs, base.tabs);
    StreamingIsFixed(base.streaming, None);
    UnaskedStreaming(base.streaming);
  }

  lemma FullRequestShape(base: Caps, r: Read)
    requires WellFormed(base) && IsRecord(r)
    requires SaysNothingOfIdentity(r) && AsksForAllFlags(base, r) && AsksForSomeWords(base, r)
    ensures ShapeValid(r)
  {
    BaseIsGrantedInFull(base);
    hide ShapeStreaming, ShapeRequestIds, ShapeMultiplexing, ShapeCancellation, ShapeTabs;
    hide StreamingServed, RequestIdsServed, MultiplexingServed, CancellationServed, ListServed, OptionalStrings, TabsServed;
    hide Get, StreamingJson, RequestIdsJson, MultiplexingJson, CancellationJson, TabsJson, WellFormed;
  }

  predicate GrantsAllFlags(base: Caps, g: Caps) {
    && g.streaming == base.streaming && g.requestIds == base.requestIds && g.multiplexing == base.multiplexing
    && g.cancellation == base.cancellation && g.tabs == base.tabs
  }

  lemma FullRequestIsGranted(base: Caps, r: Read)
    requires WellFormed(base) && IsRecord(r) && AsksForAllFlags(base, r)
    ensures GrantsAllFlags(base, Grant(base, r))
  {
    BaseIsGrantedInFull(base);
    hide GrantList, GrantStreaming, GrantRequestIds, GrantMultiplexing, GrantCancellation, GrantTabs, ShapedInFull, ServedInFull;
    hide ShapeStreaming, ShapeRequestIds, ShapeMultiplexing, ShapeCancellation, ShapeTabs;
    hide StreamingServed, RequestIdsServed, MultiplexingServed, CancellationServed, ListServed, OptionalStrings, TabsServed;
    hide Get, StreamingJson, RequestIdsJson, MultiplexingJson, CancellationJson, TabsJson, WellFormed;
  }

  lemma FullRequestIsServed(base: Caps, r: Read)
    requires WellFormed(base) && IsRecord(r)
    requires SaysNothingOfIdentity(r) && AsksForAllFlags(base, r) && AsksForSomeWords(base, r)
    ensures Satisfied(base, Grant(base, r), r) && Grant(base, r).multiplexing == base.multiplexing
  {
    FullRequestShape(base, r);
    FullRequestIsGranted(base, r);
    BaseIsGrantedInFull(base);
    hide ShapeValid, Grant, GrantStreaming, GrantRequestIds, GrantMultiplexing, GrantCancellation, GrantTabs;
    hide ShapedInFull, GrantedInFull, SaysNothingOfIdentity;
    hide ShapeStreaming, ShapeRequestIds, ShapeMultiplexing, ShapeCancellation, ShapeTabs;
    hide StreamingServed, RequestIdsServed, MultiplexingServed, CancellationServed, ListServed, OptionalStrings, TabsServed;
    hide Get, StreamingJson, RequestIdsJson, MultiplexingJson, CancellationJson, TabsJson, WellFormed;
  }

  /** The transport asks for all its backend has, but for the commands it does not need. */
  lemma OwnRequestIsServed(identity: Identity)
    requires IsIdentity(identity)
    ensures var base := Base(identity); var r := Some(OwnRequest());
      Satisfied(base, Grant(base, r), r) && Grant(base, r).multiplexing == base.multiplexing
  {
    BaseIsWellFormed(identity);
    OwnRequestRead();
    OwnListsAreServed(identity);
    hide Get, OwnRequest, Strings, StreamingJson, RequestIdsJson, MultiplexingJson, CancellationJson, TabsJson;
    hide Satisfied, Grant, ListServed, OptionalStrings, WellFormed;
    FullRequestIsServed(Base(identity), Some(OwnRequest()));
  }

  /** For every backend identity: the transport's own hello is accepted, passes the
      transport's own check, and is read as multiplexed. */
  lemma OwnHelloIsNegotiated(identity: Identity)
    requires IsIdentity(identity)
    ensures var payload := Some(OwnHello()); var h := Hello(Base(identity), payload);
      && h.accepted
      && IsNegotiatedHello(Some(HelloJson(h)), payload)
      && NegotiatedMultiplexing(Some(HelloJson(h)))
  {
    var payload := Some(OwnHello());
    var h := Hello(Base(identity), payload);
    OwnHelloRead();
    OwnRequestRead();
    OwnRequestIsServed(identity);
    NegotiatedExactly(identity, payload);
    AnswerIsMultiplexed(h);
    hide Get, OwnHello, OwnRequest, Strings, StreamingJson, MultiplexingJson, CancellationJson, TabsJson;
    hide Grant, Satisfied, IsNegotiatedHello, NegotiatedMultiplexing, HelloJson, IsIdentity, Base;
  }

  lemma OwnHelloRead()
    ensures Get(Some(OwnHello()), ProtocolVersion) == Some(Text(PROTOCOL))
    ensures Get(Some(OwnHello()), Capabilities) == Some(OwnRequest())
    ensures !Is(Get(Some(RequestIdsJson(RequestIdCaps(true, "connection"))), Required), false)
    ensures !Says(Get(Some(RequestIdsJson(RequestIdCaps(true, "connection"))), Scope), "none")
  {
    hide OwnRequest;
  }

  lemma AnswerIsMultiplexed(h: HelloResult)
    ensures NegotiatedMultiplexing(Some(HelloJson(h))) <==> h.capabilities.multiplexing == MultiplexingCaps(true, true)
  {
    HelloRead(h);
    CapsReadAll(h.capabilities);
    hide HelloJson, CapsJson;
  }

  /** This backend's base has none of what the aliases stand for, so each of its accepted
      hellos serves every flag as requested, the aliases included. */
  lemma OwnHelloServesAliases(identity: Identity, payload: Read)
    requires Hello(Base(identity), payload).accepted
    ensures var g, r := Hello(Base(identity), payload).capabilities, Get(payload, Capabilities);
      ServesExactly(g, r) && AliasesExact(g.tabs, Get(r, Tabs))
  {
    hide Hello, ServesExactly, AliasesExact, Get, Declines, COMMANDS;
    AcceptedServesExactly(Base(identity), payload);
    AliasesServedExactly(Base(identity), payload);
  }
}

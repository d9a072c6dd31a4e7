/**
 What a parsed protocol payload is to the negotiation code: JSON values whose objects are
 read one named property at a time. Property names the code never reads are `Other`.
*/
module Json {
  import opened Wire

  datatype Key =
    | Accepted | Capabilities | ProtocolVersion
    | BackendSessionId | PackageName | PackageVersion | Runtime | RuntimeVersion | BuildDigest
    | SupportedProtocolVersions | Commands | Transports
    | Streaming | Modes | TokenDeltas
    | RequestIds | Required | Scope
    | Multiplexing | UnaryFlag | StreamsFlag
    | Cancellation | Supported | Requests
    | Tabs | StableProviderIdentity | StableBrowserIdentity | StableTabIdentity | CoordinationScope
    | AuthoritativeClaim | Fencing | ConcurrentTabs | StableIdentity | Coordination | Concurrent
    | Other(name: string)

  datatype Value =
    | Null
    | Bool(flag: bool)
    | Number(number: int)
    | Text(text: string)
    | Array(items: seq<Value>)
    | Object(fields: map<Key, Value>)

  /** A property read: `None` is `undefined`. */
  type Read = Option<Value>

  /** `isRecord(v) ? v[key] : undefined`. */
  function Get(v: Read, key: Key): Read {
    if v.Some? && v.value.Object? && key in v.value.fields then Some(v.value.fields[key]) else None
  }

  predicate IsRecord(v: Read) {
    v.Some? && v.value.Object?
  }

  predicate IsArray(v: Read) {
    v.Some? && v.value.Array?
  }

  predicate Is(v: Read, flag: bool) {
    v == Some(Bool(flag))
  }

  predicate Says(v: Read, text: string) {
    v == Some(Text(text))
  }

  predicate IsBoolean(v: Read) {
    v.Some? && v.value.Bool?
  }

  function Strings(words: seq<string>): Value {
    Array(seq(|words|, i requires 0 <= i < |words| => Text(words[i])))
  }

  predicate Includes(v: Read, word: string) {
    IsArray(v) && Text(word) in v.value.items
  }

  predicate AllStrings(items: seq<Value>) {
    forall i :: 0 <= i < |items| ==> items[i].Text?
  }

  const MAX_IDENTITY_FIELD_LENGTH := 512

  predicate IsIdentityText(text: string) {
    IsValidText(text) && |text| <= MAX_IDENTITY_FIELD_LENGTH
  }

  predicate IsIdentityField(v: Read) {
    v.Some? && v.value.Text? && IsIdentityText(v.value.text)
  }
}

/** JSON documents, and the two searches for keys that name local files. */
module JsonValues {
  import opened Basics
  import opened Text

  /** The keys the code writes or reads by name; any other key is `Other`. */
  datatype Key =
    | Log | Dns | Inbounds | Outbounds | Routing | Observatory | BurstObservatory | LogLevel
    | Tag | Protocol | Settings | StreamSettings | Sockopt | Mark | SendThrough | ProxySettings | DialerProxy
    | Listen | Port | Auth | Udp | Name | Mtu | Sniffing | Enabled | DestOverride | RouteOnly
    | Rules | Balancers | Selector | FallbackTag | DomainStrategy | DomainMatcher
    | Type | Network | InboundTag | OutboundTag | BalancerTag | Domain | Process | Ip
    | Source | SourcePort | User | Attrs
    | Servers | Address | QueryStrategy | Hosts | ClientIp | EnableParallelQuery
    | Vnext | Users | Id | Flow | Security | Encryption | AlterId | Password | Method | Uot | Username | Pass | Version
    | RealitySettings | TlsSettings | Show | ServerName | Fingerprint | PublicKey | ShortId | SpiderX
    | AllowInsecure | Alpn
    | WsSettings | XhttpSettings | HttpUpgradeSettings | GrpcSettings | HttpSettings | KcpSettings | HysteriaSettings
    | TcpSettings | Path | Mode | Headers | Host | ServiceName | MultiMode | Authority | Header | Seed | Request
    | SecretKey | Peers | NoKernelTun | Reserved | Endpoint | PreSharedKey
    | Other(name: string)

  datatype Json =
    | Null
    | Bool(truth: bool)
    | Num(number: int)
    | Str(text: string)
    | Arr(items: seq<Json>)
    | Obj(fields: map<Key, Json>)

  /** `Value::get`: only an object has keys. */
  function Get(value: Json, key: Key): Option<Json> {
    if value.Obj? && key in value.fields then Some(value.fields[key]) else None
  }

  function Within(value: Option<Json>, key: Key): Option<Json> {
    if value.Some? then Get(value.value, key) else None
  }

  function AsText(value: Option<Json>): Option<string> {
    if value.Some? && value.value.Str? then Some(value.value.text) else None
  }

  function AsItems(value: Option<Json>): Option<seq<Json>> {
    if value.Some? && value.value.Arr? then Some(value.value.items) else None
  }

  function TextAt(value: Json, key: Key): Option<string> { AsText(Get(value, key)) }

  function ItemsAt(value: Json, key: Key): Option<seq<Json>> { AsItems(Get(value, key)) }

  /** The items of an optional array, none if it is absent. */
  function Flat(items: Option<seq<Json>>): seq<Json> {
    if items.Some? then items.value else []
  }

  function Texts(items: seq<string>): (j: Json)
    ensures Clean(j)
  {
    Arr(seq(|items|, i requires 0 <= i < |items| => Str(items[i])))
  }

  // ---- Local file references ----

  /** The daemon's list, case-sensitive. */
  predicate FileKey(key: Key) {
    key.Other? && key.name in {"certificateFile", "keyFile", "certificatePath", "keyPath"}
  }

  /** The client's rule for provider JSON. */
  predicate ProviderFileKey(key: Key) {
    && key.Other?
    && var name := Lowered(key.name);
       EndsWith(name, "file") || EndsWith(name, "filepath") || name == "masterkeylog"
  }

  predicate EndsWith(s: string, suffix: string) {
    |s| >= |suffix| && s[|s| - |suffix|..] == suffix
  }

  /** `contains_forbidden_file_key`, somewhere in the value. */
  predicate HasFileKey(value: Json) {
    match value
    case Obj(fields) => exists key :: key in fields && (FileKey(key) || HasFileKey(fields[key]))
    case Arr(items) => exists i :: 0 <= i < |items| && HasFileKey(items[i])
    case _ => false
  }

  /** `contains_forbidden_provider_file_reference`. */
  predicate RefersToFile(value: Json) {
    match value
    case Obj(fields) => exists key :: key in fields && (ProviderFileKey(key) || RefersToFile(fields[key]))
    case Arr(items) => exists i :: 0 <= i < |items| && RefersToFile(items[i])
    case _ => false
  }

  predicate Clean(value: Json) {
    (value.Obj? || value.Arr?) ==> !HasFileKey(value)
  }

  predicate CleanFields(fields: map<Key, Json>) {
    forall key :: key in fields ==> !FileKey(key) && Clean(fields[key])
  }

  predicate CleanItems(items: seq<Json>) {
    forall i :: 0 <= i < |items| ==> Clean(items[i])
  }

  predicate CleanOption(value: Option<Json>) { value.Some? ==> Clean(value.value) }

  lemma CleanIsNoFileKey(value: Json)
    ensures Clean(value) <==> !HasFileKey(value)
  {
  }

  /** Nothing in a value names a file exactly when nothing in its parts does. */
  lemma CleanIsStructural(value: Json)
    ensures value.Obj? ==> (Clean(value) <==> CleanFields(value.fields))
    ensures value.Arr? ==> (Clean(value) <==> CleanItems(value.items))
  {
    forall part ensures Clean(part) <==> !HasFileKey(part) {
      CleanIsNoFileKey(part);
    }
  }

  /** An object, read for file keys through its fields. */
  function Record(fields: map<Key, Json>): (j: Json)
    ensures j == Obj(fields) && (Clean(j) <==> CleanFields(fields))
  {
    CleanIsStructural(Obj(fields));
    Obj(fields)
  }

  function List(items: seq<Json>): (j: Json)
    ensures j == Arr(items) && (Clean(j) <==> CleanItems(items))
  {
    CleanIsStructural(Arr(items));
    Arr(items)
  }

  /** One key. */
  function One(key: Key, value: Json): (r: map<Key, Json>)
    ensures r == map[key := value]
    ensures !FileKey(key) ==> (CleanFields(r) <==> Clean(value))
  {
    hide Clean;
    map[key := value]
  }

  function Put(fields: map<Key, Json>, key: Key, value: Json): (r: map<Key, Json>)
    ensures r == fields[key := value]
    ensures CleanFields(fields) && !FileKey(key) && Clean(value) ==> CleanFields(r)
  {
    hide Clean;
    fields[key := value]
  }

  /** Two groups of keys in one object, the second over the first. */
  function Join(a: map<Key, Json>, b: map<Key, Json>): (r: map<Key, Json>)
    ensures r == a + b
    ensures CleanFields(a) && CleanFields(b) ==> CleanFields(r)
    ensures a.Keys !! b.Keys && CleanFields(r) ==> CleanFields(a) && CleanFields(b)
  {
    hide Clean;
    assert a.Keys !! b.Keys ==> (forall key :: key in a ==> (a + b)[key] == a[key]) && forall key :: key in b ==>
           (a + b)[key] == b[key];
    a + b
  }
}

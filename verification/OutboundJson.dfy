/** The JSON of an outbound printed from a parsed server. */
module OutboundJson {
  import opened Basics
  import opened Text
  import opened JsonValues
  import opened Marks
  import O = Outbound

  /** The WireGuard parameters of a location, `reserved` already split into bytes. */
  datatype WireGuard = WireGuard(
    localAddress: Option<string>, preSharedKey: Option<string>, mtu: Option<nat>, reserved: seq<nat>,
    domainStrategy: Option<string>)

  function TextOf(value: Option<string>): (r: Option<Json>)
    ensures CleanOption(r)
  {
    if value.Some? then Some(Str(value.value)) else None
  }

  function NumOf(value: Option<nat>): (r: Option<Json>)
    ensures CleanOption(r)
  {
    if value.Some? then Some(Num(value.value)) else None
  }

  function BoolOf(value: Option<bool>): (r: Option<Json>)
    ensures CleanOption(r)
  {
    if value.Some? then Some(Bool(value.value)) else None
  }

  function TextsOf(value: Option<seq<string>>): (r: Option<Json>)
    ensures CleanOption(r)
  {
    if value.Some? then Some(Texts(value.value)) else None
  }

  /** An object with the given value under `key`, if there is one. */
  function Maybe(key: Key, value: Option<Json>): (r: map<Key, Json>)
    ensures r.Keys <= {key}
    ensures !FileKey(key) ==> (CleanOption(value) <==> CleanFields(r))
  {
    if value.Some? then map[key := value.value] else map[]
  }

  const OBJECT_KEYS := {Address, Port, Id, Flow, Security, Encryption, AlterId, Password, Method, Uot, User, Username,
                        Pass, Version, Auth, Users, Vnext, Servers}

  function ObjectsJson(list: O.Listing): Option<Json>
    decreases list, 0
  {
    if list.Listed? then
      Some(Arr(seq(|list.items|, i requires 0 <= i < |list.items| => ObjectJson(list.items[i]))))
    else None
  }

  function ObjectField(o: O.Object, key: Key): Option<Json>
    decreases o, 0
  {
    match key
    case Address => TextOf(o.address)
    case Port => NumOf(o.port)
    case Id => TextOf(o.id)
    case Flow => TextOf(o.flow)
    case Security => TextOf(o.security)
    case Encryption => TextOf(o.encryption)
    case AlterId => NumOf(o.alterId)
    case Password => TextOf(o.password)
    case Method => TextOf(o.cipher)
    case Uot => BoolOf(o.uot)
    case User => TextOf(o.user)
    case Username => TextOf(o.username)
    case Pass => TextOf(o.pass)
    case Version => NumOf(o.version)
    case Auth => TextOf(o.auth)
    case Users => ObjectsJson(o.users)
    case Vnext => ObjectsJson(o.vnext)
    case Servers => ObjectsJson(o.servers)
    case _ => None
  }

  function ObjectJson(o: O.Object): Json
    decreases o, 1
  {
    Record(map key | key in OBJECT_KEYS && ObjectField(o, key).Some? :: ObjectField(o, key).value)
  }

  function RealityJson(r: O.RealitySettings): (j: Json)
    ensures Clean(j)
  {
    hide HasFileKey, CleanFields, CleanOption, Maybe, TextOf, Join, One;
    var names := Join(Maybe(ServerName, TextOf(r.serverName)), Maybe(Fingerprint, TextOf(r.fingerprint)));
    var keys := Join(Maybe(PublicKey, TextOf(r.publicKey)), Maybe(ShortId, TextOf(r.shortId)));
    Record(Join(One(Show, Bool(false)), Join(Join(names, keys), Maybe(SpiderX, TextOf(r.spiderX)))))
  }

  function TlsJson(t: O.TlsSettings): (j: Json)
    ensures Clean(j)
  {
    hide HasFileKey, Clean, CleanFields, CleanOption, Maybe, TextOf, BoolOf, TextsOf, Join;
    var names := Join(Maybe(ServerName, TextOf(t.serverName)), Maybe(Fingerprint, TextOf(t.fingerprint)));
    Record(Join(names, Join(Maybe(AllowInsecure, BoolOf(t.allowInsecure)), Maybe(Alpn, TextsOf(t.alpn)))))
  }

  /** The Host header of a WebSocket or fake HTTP request. */
  function HostHeaders(host: Option<Json>): (r: map<Key, Json>)
    ensures CleanOption(host) ==> CleanFields(r)
  {
    hide HasFileKey, One;
    if host.Some? then One(Headers, Record(One(Host, host.value))) else map[]
  }

  /** `xhttpSettings`: the provider's `extra` object, if any, with the location's own keys over it. */
  function XhttpJson(s: O.Server, p: O.PathSettings, extra: map<Key, Json>): (j: Json)
    ensures CleanFields(extra) ==> Clean(j)
  {
    hide HasFileKey, Clean, CleanFields, Maybe, TextOf, Join;
    var path := if s.path.Some? || Path !in extra then TextOf(p.path) else None;
    var mode := if s.mode.Some? || Mode !in extra then TextOf(p.mode) else None;
    Record(Join(Join(Join(extra, Maybe(Path, path)), Maybe(Mode, mode)), Maybe(Host, TextOf(p.host))))
  }

  function PathAndHost(path: Option<Json>, host: Option<Json>): (j: Json)
    ensures CleanOption(path) && CleanOption(host) ==> Clean(j)
  {
    hide HasFileKey, Clean, CleanFields, CleanOption, Maybe, Join;
    Record(Join(Maybe(Path, path), Maybe(Host, host)))
  }

  function GrpcJson(g: O.GrpcSettings): (j: Json)
    ensures Clean(j)
  {
    hide HasFileKey, Clean, CleanFields, CleanOption, Maybe, TextOf, BoolOf, Join;
    Record(Join(Join(Maybe(ServiceName, TextOf(g.serviceName)), Maybe(MultiMode, BoolOf(g.multiMode))),
                Maybe(Authority, TextOf(g.authority))))
  }

  function KcpJson(k: O.KcpSettings): (j: Json)
    ensures Clean(j)
  {
    hide HasFileKey, CleanFields, Maybe, TextOf, Join, One;
    Record(Join(One(Header, Record(Maybe(Type, TextOf(k.headerType)))), Maybe(Seed, TextOf(k.seed))))
  }

  function TcpJson(r: O.TcpRequest): (j: Json)
    ensures Clean(j)
  {
    hide HasFileKey, CleanFields, Maybe, TextsOf, Join, HostHeaders, One;
    var request := Record(Join(HostHeaders(TextsOf(r.hosts)), Maybe(Path, TextsOf(r.paths))));
    Record(One(Header, Record(Join(One(Type, Str("http")), One(Request, request)))))
  }

  /** The key and value of the transport's block. */
  function BlockEntry(s: O.Server, extra: map<Key, Json>): (r: Option<(Key, Json)>)
    ensures r.Some? ==> !FileKey(r.value.0) && r.value.0 != Sockopt && (CleanFields(extra) ==> Clean(r.value.1))
  {
    hide HasFileKey, CleanFields, CleanOption, Maybe, TextOf, TextsOf, Join, HostHeaders, TcpJson, KcpJson, GrpcJson,
         XhttpJson, PathAndHost, One, O.BuildBlock;
    match O.BuildBlock(s)
    case NoBlock => None
    case WsBlock(p) => Some((WsSettings, Record(Join(Maybe(Path, TextOf(p.path)), HostHeaders(TextOf(p.host))))))
    case XhttpBlock(p) => Some((XhttpSettings, XhttpJson(s, p, extra)))
    case HttpUpgradeBlock(p) => Some((HttpUpgradeSettings, PathAndHost(TextOf(p.path), TextOf(p.host))))
    case GrpcBlock(g) => Some((GrpcSettings, GrpcJson(g)))
    case HttpBlock(h) => Some((HttpSettings, PathAndHost(TextOf(h.path), TextsOf(h.hosts))))
    case KcpBlock(k) => Some((KcpSettings, KcpJson(k)))
    case HysteriaBlock(version, auth) =>
      Some((HysteriaSettings, Record(Join(One(Version, Num(version)), Maybe(Auth, TextOf(auth))))))
    case TcpBlock(r) => Some((TcpSettings, TcpJson(r)))
  }

  function NetworkName(network: O.Transport): string {
    match network
    case Xhttp => "xhttp"
    case Ws => "ws"
    case Grpc => "grpc"
    case HttpUpgrade => "httpupgrade"
    case Http => "http"
    case Kcp => "kcp"
    case HysteriaTransport => "hysteria"
    case _ => "tcp"
  }

  function MarkedSockopt(): (j: Json)
    ensures Clean(j)
  {
    hide HasFileKey;
    Record(One(Mark, Num(XRAY_DIAL_MARK)))
  }

  function SecurityJson(s: O.Server): (r: map<Key, Json>)
    ensures CleanFields(r)
  {
    hide HasFileKey, CleanFields, RealityJson, TlsJson, One, Join;
    var stream := O.BuildStream(s);
    if stream.reality.Some? then Join(One(Security, Str("reality")),
                                      One(RealitySettings, RealityJson(stream.reality.value)))
    else if stream.tls.Some? then Join(One(Security, Str("tls")), One(TlsSettings, TlsJson(stream.tls.value)))
    else One(Security, Str("none"))
  }

  function StreamJson(s: O.Server, extra: map<Key, Json>): (j: Json)
    ensures CleanFields(extra) ==> Clean(j)
    ensures Get(j, Sockopt) == Some(MarkedSockopt())
  {
    hide HasFileKey, CleanFields, SecurityJson, BlockEntry, MarkedSockopt, Join, NetworkName, One, O.XrayNetwork;
    var block := BlockEntry(s, extra);
    var network := Join(One(Network, Str(NetworkName(O.XrayNetwork(s.transport)))), SecurityJson(s));
    var settings := if block.Some? then Join(network, One(block.value.0, block.value.1)) else network;
    Record(Join(settings, One(Sockopt, MarkedSockopt())))
  }

  function ProtocolName(protocol: O.Protocol): string {
    match protocol
    case Vmess => "vmess"
    case Trojan => "trojan"
    case Shadowsocks => "shadowsocks"
    case Hysteria => "hysteria"
    case HttpProxy => "http"
    case Socks => "socks"
    case Wireguard => "wireguard"
    case _ => "vless"
  }

  function Bytes(values: seq<nat>): (j: Json)
    ensures Clean(j)
  {
    List(seq(|values|, i requires 0 <= i < |values| => Num(values[i])))
  }

  function PeersJson(s: O.Server, w: WireGuard): (j: Json)
    ensures Clean(j)
  {
    hide HasFileKey, CleanFields, Maybe, TextOf, Join, PrintNat, One;
    var endpoint := One(Endpoint, Str(s.host + ":" + PrintNat(s.port)));
    var peer := Join(endpoint, One(PublicKey, Str(O.Or(s.publicKey, ""))));
    List([Record(Join(peer, Maybe(PreSharedKey, TextOf(O.NonEmpty(w.preSharedKey)))))])
  }

  function LocalAddresses(w: WireGuard): (j: Json)
    ensures Clean(j)
  {
    var listed := if w.localAddress.Some? then SplitList(w.localAddress.value) else [];
    Texts(if listed == [] then ["10.0.0.1/32"] else listed)
  }

  function WireGuardJson(s: O.Server, w: WireGuard): (j: Json)
    ensures Clean(j)
  {
    hide HasFileKey, CleanFields, Maybe, NumOf, Join, LocalAddresses, PeersJson, Bytes, One;
    var keys := Join(Join(One(SecretKey, Str(s.uuid)), One(Address, LocalAddresses(w))), One(Peers, PeersJson(s, w)));
    var fixed := Join(One(NoKernelTun, Bool(true)), One(DomainStrategy, Str(O.Or(w.domainStrategy, "ForceIP"))));
    var reserved := if w.reserved != [] then Some(Bytes(w.reserved)) else None;
    Record(Join(Join(keys, fixed), Join(Maybe(Mtu, NumOf(w.mtu)), Maybe(Reserved, reserved))))
  }

  /** `build_proxy_outbound` for a location without provider JSON. */
  function Printed(s: O.Server, w: WireGuard, extra: map<Key, Json>): Json {
    if s.protocol == O.Wireguard then
      Labelled("wireguard", One(Settings, WireGuardJson(s, w)))
    else
      Labelled(ProtocolName(s.protocol),
               Join(One(Settings, ObjectJson(O.BuildSettings(s))), One(StreamSettings, StreamJson(s, extra))))
  }

  function Labelled(protocol: string, fields: map<Key, Json>): (j: Json)
    ensures CleanFields(fields) ==> Clean(j)
    ensures j.Obj? && TextAt(j, Tag) == Some("proxy") && TextAt(j, Protocol) == Some(protocol)
    ensures Get(j, StreamSettings) == if StreamSettings in fields then Some(fields[StreamSettings]) else None
  {
    hide HasFileKey, CleanFields, Put;
    Record(Put(Put(fields, Tag, Str("proxy")), Protocol, Str(protocol)))
  }

  // ---- No printed outbound names a local file, unless `extra` does ----

  lemma {:induction false} ObjectIsClean(o: O.Object)
    ensures Clean(ObjectJson(o))
    decreases o, 1
  {
    hide HasFileKey, Clean, TextOf, NumOf, BoolOf, ObjectsJson;
    ObjectsAreClean(o.users);
    ObjectsAreClean(o.vnext);
    ObjectsAreClean(o.servers);
    forall key | key in ObjectJson(o).fields
      ensures !FileKey(key) && CleanOption(ObjectField(o, key))
    {
    }
  }

  lemma {:induction false} ObjectsAreClean(list: O.Listing)
    ensures CleanOption(ObjectsJson(list))
    decreases list, 0
  {
    if list.Listed? {
      forall i | 0 <= i < |list.items|
        ensures Clean(ObjectJson(list.items[i]))
      {
        ObjectIsClean(list.items[i]);
      }
    }
  }

  lemma PrintedOutbound(s: O.Server, w: WireGuard, extra: map<Key, Json>)
    ensures var ob := Printed(s, w, extra);
            && TextAt(ob, Tag) == Some("proxy") && TextAt(ob, Protocol) == Some(ProtocolName(s.protocol))
            && (s.protocol != O.Wireguard ==>
                  Within(Within(Get(ob, StreamSettings), Sockopt), Mark) == Some(Num(XRAY_DIAL_MARK)))
            && (CleanFields(extra) ==> Clean(ob))
  {
    hide WireGuardJson, StreamJson, ObjectJson, HasFileKey, Clean, CleanFields, Labelled, O.BuildSettings, ProtocolName;
    ObjectIsClean(O.BuildSettings(s));
    if s.protocol == O.Wireguard {
      WireGuardIsNamed();
      assert Printed(s, w, extra) == Labelled("wireguard", One(Settings, WireGuardJson(s, w)));
    } else {
      var stream := StreamJson(s, extra);
      var fields := Join(One(Settings, ObjectJson(O.BuildSettings(s))), One(StreamSettings, stream));
      assert Printed(s, w, extra) == Labelled(ProtocolName(s.protocol), fields);
      assert fields[StreamSettings] == stream;
    }
  }

  lemma WireGuardIsNamed()
    ensures ProtocolName(O.Wireguard) == "wireguard"
  {
  }
}

/** The JSON of a printed outbound, read key by key as the parser reads it, is the outbound that was printed. */
module JsonReadBack {
  import opened Basics
  import opened Text
  import opened Marks
  import opened JsonValues
  import opened OutboundJson
  import O = Outbound

  // ---- Reading ----

  function NatAt(value: Json, key: Key): Option<nat> {
    var v := Get(value, key);
    if v.Some? && v.value.Num? && v.value.number >= 0 then Some(v.value.number) else None
  }

  function BoolAt(value: Json, key: Key): Option<bool> {
    var v := Get(value, key);
    if v.Some? && v.value.Bool? then Some(v.value.truth) else None
  }

  function TextItems(items: seq<Json>): Option<seq<string>> {
    if forall i :: 0 <= i < |items| ==> items[i].Str? then
      Some(seq(|items|, i requires 0 <= i < |items| && items[i].Str? => items[i].text))
    else None
  }

  function TextsAt(value: Json, key: Key): Option<seq<string>> {
    var items := ItemsAt(value, key);
    if items.Some? then TextItems(items.value) else None
  }

  function ReadObject(j: Json): O.Object
    decreases j, 0
  {
    O.Object(
      TextAt(j, Address), NatAt(j, Port), TextAt(j, Id), TextAt(j, Flow), TextAt(j, Security), TextAt(j, Encryption),
      NatAt(j, AlterId), TextAt(j, Password), TextAt(j, Method), BoolAt(j, Uot), TextAt(j, User), TextAt(j, Username),
      TextAt(j, Pass), NatAt(j, Version), TextAt(j, Auth),
      if j.Obj? && Users in j.fields then ReadListing(j.fields[Users]) else O.Unlisted,
      if j.Obj? && Vnext in j.fields then ReadListing(j.fields[Vnext]) else O.Unlisted,
      if j.Obj? && Servers in j.fields then ReadListing(j.fields[Servers]) else O.Unlisted)
  }

  function ReadListing(j: Json): O.Listing
    decreases j, 1
  {
    if j.Arr? then O.Listed(seq(|j.items|, i requires 0 <= i < |j.items| => ReadObject(j.items[i]))) else O.Unlisted
  }

  function Part(j: Json, key: Key): Json {
    var v := Get(j, key);
    if v.Some? then v.value else Null
  }

  function ReadReality(j: Json): O.RealitySettings {
    O.RealitySettings(TextAt(j, ServerName), TextAt(j, Fingerprint), TextAt(j, PublicKey), TextAt(j, ShortId),
                      TextAt(j, SpiderX))
  }

  function ReadTls(j: Json): O.TlsSettings {
    O.TlsSettings(TextAt(j, ServerName), TextAt(j, Fingerprint), BoolAt(j, AllowInsecure), TextsAt(j, Alpn))
  }

  function ReadNetwork(name: string): O.Transport {
    if name == "xhttp" then O.Xhttp
    else if name == "ws" then O.Ws
    else if name == "grpc" then O.Grpc
    else if name == "httpupgrade" then O.HttpUpgrade
    else if name == "http" then O.Http
    else if name == "kcp" then O.Kcp
    else if name == "hysteria" then O.HysteriaTransport
    else O.Tcp
  }

  function ReadSecurity(name: string): O.Security {
    if name == "reality" then O.Reality else if name == "tls" then O.Tls else O.NoSecurity
  }

  function ReadBlock(network: O.Transport, j: Json): O.Block {
    match network
    case Ws =>
      var ws := Part(j, WsSettings);
      O.WsBlock(O.PathSettings(TextAt(ws, Path), None, TextAt(Part(ws, Headers), Host)))
    case Xhttp =>
      var x := Part(j, XhttpSettings);
      O.XhttpBlock(O.PathSettings(TextAt(x, Path), TextAt(x, Mode), TextAt(x, Host)))
    case HttpUpgrade =>
      var h := Part(j, HttpUpgradeSettings);
      O.HttpUpgradeBlock(O.PathSettings(TextAt(h, Path), None, TextAt(h, Host)))
    case Grpc =>
      var g := Part(j, GrpcSettings);
      O.GrpcBlock(O.GrpcSettings(TextAt(g, ServiceName), BoolAt(g, MultiMode), TextAt(g, Authority)))
    case Http => O.HttpBlock(O.HttpSettings(TextAt(Part(j, HttpSettings), Path), TextsAt(Part(j, HttpSettings), Host)))
    case Kcp =>
      var k := Part(j, KcpSettings);
      O.KcpBlock(O.KcpSettings(TextAt(Part(k, Header), Type), TextAt(k, Seed)))
    case HysteriaTransport =>
      var h := Part(j, HysteriaSettings);
      O.HysteriaBlock(if NatAt(h, Version).Some? then NatAt(h, Version).value else 0, TextAt(h, Auth))
    case _ =>
      if Get(j, TcpSettings).None? then O.NoBlock
      else
        var request := Part(Part(Part(j, TcpSettings), Header), Request);
        O.TcpBlock(O.TcpRequest(TextsAt(Part(request, Headers), Host), TextsAt(request, Path)))
  }

  function ReadStream(j: Json): O.Stream {
    var network := ReadNetwork(if TextAt(j, Network).Some? then TextAt(j, Network).value else "");
    O.Stream(
      Some(network),
      Some(ReadSecurity(if TextAt(j, Security).Some? then TextAt(j, Security).value else "")),
      if Get(j, RealitySettings).Some? then Some(ReadReality(Part(j, RealitySettings))) else None,
      if Get(j, TlsSettings).Some? then Some(ReadTls(Part(j, TlsSettings))) else None,
      ReadBlock(network, j),
      NatAt(Part(j, Sockopt), Mark))
  }

  function ReadProtocol(name: string): O.Protocol {
    if name == "vmess" then O.Vmess
    else if name == "trojan" then O.Trojan
    else if name == "shadowsocks" then O.Shadowsocks
    else if name == "hysteria" then O.Hysteria
    else if name == "http" then O.HttpProxy
    else if name == "socks" then O.Socks
    else if name == "vless" then O.Vless
    else O.OtherProtocol(name)
  }

  function ReadOutbound(j: Json): O.OutboundDoc {
    O.OutboundDoc(
      if TextAt(j, Tag).Some? then TextAt(j, Tag).value else "",
      ReadProtocol(if TextAt(j, Protocol).Some? then TextAt(j, Protocol).value else ""),
      if Get(j, Settings).Some? then Some(ReadObject(Part(j, Settings))) else None,
      if Get(j, StreamSettings).Some? then Some(ReadStream(Part(j, StreamSettings))) else None)
  }

  // ---- Objects ----

  lemma ObjectKeys(o: O.Object, key: Key)
    ensures Get(ObjectJson(o), key) == ObjectField(o, key)
  {
    assert ObjectField(o, key).Some? ==> key in OBJECT_KEYS;
  }

  lemma TextReads(j: Json, key: Key, value: Option<string>)
    requires Get(j, key) == TextOf(value)
    ensures TextAt(j, key) == value
  {
  }

  lemma NatReads(j: Json, key: Key, value: Option<nat>)
    requires Get(j, key) == NumOf(value)
    ensures NatAt(j, key) == value
  {
  }

  lemma BoolReads(j: Json, key: Key, value: Option<bool>)
    requires Get(j, key) == BoolOf(value)
    ensures BoolAt(j, key) == value
  {
  }

  lemma EndpointReads(o: O.Object)
    ensures var j := ObjectJson(o);
            && TextAt(j, Address) == o.address
            && NatAt(j, Port) == o.port
            && TextAt(j, Id) == o.id
  {
    hide ObjectJson, TextOf, NumOf, BoolOf, TextAt, NatAt, BoolAt, Get;
    var j := ObjectJson(o);
    ObjectKeys(o, Address);
    TextReads(j, Address, o.address);
    ObjectKeys(o, Port);
    NatReads(j, Port, o.port);
    ObjectKeys(o, Id);
    TextReads(j, Id, o.id);
  }

  lemma UserReads(o: O.Object)
    ensures var j := ObjectJson(o);
            && TextAt(j, Flow) == o.flow
            && TextAt(j, Security) == o.security
            && TextAt(j, Encryption) == o.encryption
            && NatAt(j, AlterId) == o.alterId
  {
    hide ObjectJson, TextOf, NumOf, BoolOf, TextAt, NatAt, BoolAt, Get;
    var j := ObjectJson(o);
    ObjectKeys(o, Flow);
    TextReads(j, Flow, o.flow);
    ObjectKeys(o, Security);
    TextReads(j, Security, o.security);
    ObjectKeys(o, Encryption);
    TextReads(j, Encryption, o.encryption);
    ObjectKeys(o, AlterId);
    NatReads(j, AlterId, o.alterId);
  }

  lemma SecretReads(o: O.Object)
    ensures var j := ObjectJson(o);
            && TextAt(j, Password) == o.password
            && TextAt(j, Method) == o.cipher
            && BoolAt(j, Uot) == o.uot
  {
    hide ObjectJson, TextOf, NumOf, BoolOf, TextAt, NatAt, BoolAt, Get;
    var j := ObjectJson(o);
    ObjectKeys(o, Password);
    TextReads(j, Password, o.password);
    ObjectKeys(o, Method);
    TextReads(j, Method, o.cipher);
    ObjectKeys(o, Uot);
    BoolReads(j, Uot, o.uot);
  }

  lemma LoginReads(o: O.Object)
    ensures var j := ObjectJson(o);
            && TextAt(j, User) == o.user
            && TextAt(j, Username) == o.username
            && TextAt(j, Pass) == o.pass
  {
    hide ObjectJson, TextOf, NumOf, BoolOf, TextAt, NatAt, BoolAt, Get;
    var j := ObjectJson(o);
    ObjectKeys(o, User);
    TextReads(j, User, o.user);
    ObjectKeys(o, Username);
    TextReads(j, Username, o.username);
    ObjectKeys(o, Pass);
    TextReads(j, Pass, o.pass);
  }

  lemma HysteriaReads(o: O.Object)
    ensures var j := ObjectJson(o);
            && NatAt(j, Version) == o.version
            && TextAt(j, Auth) == o.auth
  {
    hide ObjectJson, TextOf, NumOf, BoolOf, TextAt, NatAt, BoolAt, Get;
    var j := ObjectJson(o);
    ObjectKeys(o, Version);
    NatReads(j, Version, o.version);
    ObjectKeys(o, Auth);
    TextReads(j, Auth, o.auth);
  }

  lemma ListsRead(o: O.Object)
    ensures var j := ObjectJson(o);
            && Get(j, Users) == ObjectsJson(o.users) && Get(j, Vnext) == ObjectsJson(o.vnext)
            && Get(j, Servers) == ObjectsJson(o.servers)
  {
    hide ObjectJson, Get;
    ObjectKeys(o, Users);
    ObjectKeys(o, Vnext);
    ObjectKeys(o, Servers);
  }

  lemma {:induction false} ObjectReadsBack(o: O.Object)
    ensures ReadObject(ObjectJson(o)) == o
    decreases o, 1
  {
    EndpointReads(o);
    UserReads(o);
    SecretReads(o);
    LoginReads(o);
    HysteriaReads(o);
    ListsRead(o);
    ListingReadsBack(o.users);
    ListingReadsBack(o.vnext);
    ListingReadsBack(o.servers);
    hide ObjectJson, ObjectField, ObjectsJson, ReadListing, TextAt, NatAt, BoolAt;
  }

  lemma {:induction false} ListingReadsBack(list: O.Listing)
    ensures list.Listed? ==> ObjectsJson(list).Some? && ReadListing(ObjectsJson(list).value) == list
    ensures list.Unlisted? ==> ObjectsJson(list).None?
    decreases list, 0
  {
    if list.Listed? {
      var j := ObjectsJson(list).value;
      forall i | 0 <= i < |list.items|
        ensures ReadObject(j.items[i]) == list.items[i]
      {
        ObjectReadsBack(list.items[i]);
      }
      assert ReadListing(j).items == list.items;
    }
  }

  // ---- Groups of optional keys ----

  /** What a key of an object is, in a group of fields. */
  function In(fields: map<Key, Json>, key: Key): Option<Json> { Get(Obj(fields), key) }

  lemma MaybeReads(key: Key, value: Option<Json>)
    ensures forall other :: In(Maybe(key, value), other) == if other == key then value else None
  {
  }

  lemma OneReads(key: Key, value: Json)
    ensures forall other :: In(One(key, value), other) == if other == key then Some(value) else None
  {
  }

  /** The later of two groups decides. */
  lemma JoinReads(a: map<Key, Json>, b: map<Key, Json>)
    ensures forall key :: In(Join(a, b), key) == OrElse(In(b, key), In(a, key))
  {
  }

  lemma TextsReadBack(texts: Option<seq<string>>, j: Json, key: Key)
    requires Get(j, key) == TextsOf(texts)
    ensures TextsAt(j, key) == texts
  {
    if texts.Some? {
      var items := Texts(texts.value).items;
      assert forall i :: 0 <= i < |items| ==> items[i].Str? && items[i].text == texts.value[i];
      assert TextItems(items).value == texts.value;
    }
  }

  // ---- The parts of a stream ----

  lemma RealityReads(r: O.RealitySettings)
    ensures ReadReality(RealityJson(r)) == r
  {
    hide TextOf, TextAt, CleanFields, Clean, Join, Maybe, One, In;
    var a, b := Maybe(ServerName, TextOf(r.serverName)), Maybe(Fingerprint, TextOf(r.fingerprint));
    var c, d := Maybe(PublicKey, TextOf(r.publicKey)), Maybe(ShortId, TextOf(r.shortId));
    var e, f := Maybe(SpiderX, TextOf(r.spiderX)), One(Show, Bool(false));
    var j := RealityJson(r);
    assert j == Obj(Join(f, Join(Join(Join(a, b), Join(c, d)), e)));
    hide RealityJson;
    MaybeReads(ServerName, TextOf(r.serverName));
    MaybeReads(Fingerprint, TextOf(r.fingerprint));
    MaybeReads(PublicKey, TextOf(r.publicKey));
    MaybeReads(ShortId, TextOf(r.shortId));
    MaybeReads(SpiderX, TextOf(r.spiderX));
    OneReads(Show, Bool(false));
    JoinReads(a, b);
    JoinReads(c, d);
    JoinReads(Join(a, b), Join(c, d));
    JoinReads(Join(Join(a, b), Join(c, d)), e);
    JoinReads(f, Join(Join(Join(a, b), Join(c, d)), e));
    KeyReads(j, ServerName);
    KeyReads(j, Fingerprint);
    KeyReads(j, PublicKey);
    KeyReads(j, ShortId);
    KeyReads(j, SpiderX);
    TextReads(j, ServerName, r.serverName);
    TextReads(j, Fingerprint, r.fingerprint);
    TextReads(j, PublicKey, r.publicKey);
    TextReads(j, ShortId, r.shortId);
    TextReads(j, SpiderX, r.spiderX);
  }

  lemma KeyReads(j: Json, key: Key)
    requires j.Obj?
    ensures Get(j, key) == In(j.fields, key)
  {
  }

  lemma TlsReads(t: O.TlsSettings)
    ensures ReadTls(TlsJson(t)) == t
  {
    hide TextOf, TextsOf, BoolOf, TextAt, BoolAt, TextsAt, CleanFields, Clean, Join, Maybe, In;
    var j := TlsJson(t);
    var a, b := Maybe(ServerName, TextOf(t.serverName)), Maybe(Fingerprint, TextOf(t.fingerprint));
    var c, d := Maybe(AllowInsecure, BoolOf(t.allowInsecure)), Maybe(Alpn, TextsOf(t.alpn));
    assert j == Obj(Join(Join(a, b), Join(c, d)));
    hide TlsJson;
    MaybeReads(ServerName, TextOf(t.serverName));
    MaybeReads(Fingerprint, TextOf(t.fingerprint));
    MaybeReads(AllowInsecure, BoolOf(t.allowInsecure));
    MaybeReads(Alpn, TextsOf(t.alpn));
    JoinReads(a, b);
    JoinReads(c, d);
    JoinReads(Join(a, b), Join(c, d));
    KeyReads(j, ServerName);
    KeyReads(j, Fingerprint);
    KeyReads(j, AllowInsecure);
    KeyReads(j, Alpn);
    TextReads(j, ServerName, t.serverName);
    TextReads(j, Fingerprint, t.fingerprint);
    BoolReads(j, AllowInsecure, t.allowInsecure);
    TextsReadBack(t.alpn, j, Alpn);
  }

  // ---- The transport's block ----

  lemma HostHeadersRead(host: Option<Json>)
    ensures forall key :: In(HostHeaders(host), key) ==
              if key == Headers && host.Some? then Some(Obj(map[Host := host.value])) else None
  {
    if host.Some? {
      OneReads(Headers, Record(One(Host, host.value)));
    }
  }

  lemma HostInHeaders(value: Json)
    ensures Get(Obj(map[Host := value]), Host) == Some(value)
  {
  }

  /** Path and host side by side, as three transports have them. */
  lemma PathAndHostRead(path: Option<Json>, host: Option<Json>)
    ensures var j := PathAndHost(path, host); Get(j, Path) == path && Get(j, Host) == host
  {
    hide Join, Maybe, In;
    var j := PathAndHost(path, host);
    MaybeReads(Path, path);
    MaybeReads(Host, host);
    JoinReads(Maybe(Path, path), Maybe(Host, host));
    KeyReads(j, Path);
    KeyReads(j, Host);
  }

  lemma WsReads(p: O.PathSettings, j: Json)
    requires j == Record(Join(Maybe(Path, TextOf(p.path)), HostHeaders(TextOf(p.host))))
    ensures TextAt(j, Path) == p.path && TextAt(Part(j, Headers), Host) == p.host
  {
    hide Join, Maybe, In, HostHeaders, CleanFields, Clean;
    MaybeReads(Path, TextOf(p.path));
    HostHeadersRead(TextOf(p.host));
    JoinReads(Maybe(Path, TextOf(p.path)), HostHeaders(TextOf(p.host)));
    KeyReads(j, Path);
    KeyReads(j, Headers);
    TextReads(j, Path, p.path);
    if p.host.Some? {
      HostInHeaders(Str(p.host.value));
    }
  }

  lemma XhttpReads(s: O.Server, p: O.PathSettings)
    ensures var j := XhttpJson(s, p, map[]);
            TextAt(j, Path) == p.path && TextAt(j, Mode) == p.mode && TextAt(j, Host) == p.host
  {
    hide Join, Maybe, In, TextOf, TextAt, CleanFields, Clean;
    var j := XhttpJson(s, p, map[]);
    var a, b, c := Maybe(Path, TextOf(p.path)), Maybe(Mode, TextOf(p.mode)), Maybe(Host, TextOf(p.host));
    assert j == Obj(Join(Join(Join(map[], a), b), c));
    hide XhttpJson;
    MaybeReads(Path, TextOf(p.path));
    MaybeReads(Mode, TextOf(p.mode));
    MaybeReads(Host, TextOf(p.host));
    JoinReads(map[], a);
    JoinReads(Join(map[], a), b);
    JoinReads(Join(Join(map[], a), b), c);
    EmptyReads();
    KeyReads(j, Path);
    KeyReads(j, Mode);
    KeyReads(j, Host);
    TextReads(j, Path, p.path);
    TextReads(j, Mode, p.mode);
    TextReads(j, Host, p.host);
  }

  /** What each key of xhttp is: the server's own host, path and mode over the `extra` object, the rest as it is
      there. */
  function XhttpField(s: O.Server, p: O.PathSettings, extra: map<Key, Json>, key: Key): Option<Json> {
    if key == Host && p.host.Some? then Some(Str(p.host.value))
    else if key == Path && (s.path.Some? || Path !in extra) && p.path.Some? then Some(Str(p.path.value))
    else if key == Mode && (s.mode.Some? || Mode !in extra) && p.mode.Some? then Some(Str(p.mode.value))
    else if key in extra then Some(extra[key])
    else None
  }

  lemma ExtraIsMerged(s: O.Server, p: O.PathSettings, extra: map<Key, Json>, key: Key)
    ensures Get(XhttpJson(s, p, extra), key) == XhttpField(s, p, extra, key)
  {
    hide Join, Maybe, In, CleanFields, Clean, CleanOption, Get, XhttpField;
    var path := if s.path.Some? || Path !in extra then TextOf(p.path) else None;
    var mode := if s.mode.Some? || Mode !in extra then TextOf(p.mode) else None;
    var a, b, c := Maybe(Path, path), Maybe(Mode, mode), Maybe(Host, TextOf(p.host));
    XhttpLayers(s, p, extra);
    hide XhttpJson, TextOf, OrElse;
    KeyReads(Obj(Join(Join(Join(extra, a), b), c)), key);
    LayersRead(extra, a, b, c, key);
    MaybeReadsAt(Path, path, key);
    MaybeReadsAt(Mode, mode, key);
    MaybeReadsAt(Host, TextOf(p.host), key);
    XhttpFieldIs(s, p, extra, key);
  }

  lemma XhttpLayers(s: O.Server, p: O.PathSettings, extra: map<Key, Json>)
    ensures var path := if s.path.Some? || Path !in extra then TextOf(p.path) else None;
            var mode := if s.mode.Some? || Mode !in extra then TextOf(p.mode) else None;
            XhttpJson(s, p, extra)
            == Obj(Join(Join(Join(extra, Maybe(Path, path)), Maybe(Mode, mode)), Maybe(Host, TextOf(p.host))))
  {
    hide Join, Maybe, TextOf, CleanFields, Clean, CleanOption;
  }

  lemma LayersRead(extra: map<Key, Json>, a: map<Key, Json>, b: map<Key, Json>, c: map<Key, Json>, key: Key)
    ensures In(Join(Join(Join(extra, a), b), c), key)
            == OrElse(In(c, key), OrElse(In(b, key), OrElse(In(a, key), In(extra, key))))
  {
    JoinReads(extra, a);
    JoinReads(Join(extra, a), b);
    JoinReads(Join(Join(extra, a), b), c);
    hide Join, In;
  }

  lemma XhttpFieldIs(s: O.Server, p: O.PathSettings, extra: map<Key, Json>, key: Key)
    ensures var path := if s.path.Some? || Path !in extra then TextOf(p.path) else None;
            var mode := if s.mode.Some? || Mode !in extra then TextOf(p.mode) else None;
            XhttpField(s, p, extra, key)
            == OrElse(if key == Host then TextOf(p.host) else None,
                      OrElse(if key == Mode then mode else None,
                             OrElse(if key == Path then path else None, In(extra, key))))
  {
    if key == Host {
    } else if key == Mode {
    } else if key == Path {
    } else {
    }
  }

  lemma EmptyReads()
    ensures forall key :: In(map[], key) == None
  {
  }

  lemma GrpcReads(g: O.GrpcSettings)
    ensures var j := GrpcJson(g);
            TextAt(j, ServiceName) == g.serviceName && BoolAt(j, MultiMode) == g.multiMode
            && TextAt(j, Authority) == g.authority
  {
    hide Join, Maybe, In, TextOf, BoolOf, TextAt, BoolAt, CleanFields, Clean;
    var j := GrpcJson(g);
    var a, b := Maybe(ServiceName, TextOf(g.serviceName)), Maybe(MultiMode, BoolOf(g.multiMode));
    var c := Maybe(Authority, TextOf(g.authority));
    assert j == Obj(Join(Join(a, b), c));
    hide GrpcJson;
    MaybeReads(ServiceName, TextOf(g.serviceName));
    MaybeReads(MultiMode, BoolOf(g.multiMode));
    MaybeReads(Authority, TextOf(g.authority));
    JoinReads(a, b);
    JoinReads(Join(a, b), c);
    KeyReads(j, ServiceName);
    KeyReads(j, MultiMode);
    KeyReads(j, Authority);
    TextReads(j, ServiceName, g.serviceName);
    BoolReads(j, MultiMode, g.multiMode);
    TextReads(j, Authority, g.authority);
  }

  lemma KcpReads(k: O.KcpSettings)
    ensures var j := KcpJson(k); TextAt(Part(j, Header), Type) == k.headerType && TextAt(j, Seed) == k.seed
  {
    hide Join, Maybe, In, One, TextOf, CleanFields, Clean;
    var header := Record(Maybe(Type, TextOf(k.headerType)));
    var j := KcpJson(k);
    assert j == Obj(Join(One(Header, header), Maybe(Seed, TextOf(k.seed))));
    hide KcpJson;
    OneReads(Header, header);
    MaybeReads(Type, TextOf(k.headerType));
    MaybeReads(Seed, TextOf(k.seed));
    JoinReads(One(Header, header), Maybe(Seed, TextOf(k.seed)));
    KeyReads(j, Header);
    KeyReads(j, Seed);
    KeyReads(header, Type);
    TextReads(j, Seed, k.seed);
    TextReads(header, Type, k.headerType);
  }

  lemma TcpReads(r: O.TcpRequest)
    ensures var request := Part(Part(TcpJson(r), Header), Request);
            TextsAt(Part(request, Headers), Host) == r.hosts && TextsAt(request, Path) == r.paths
  {
    hide Join, Maybe, In, One, TextsOf, TextsAt, CleanFields, Clean, HostHeaders;
    var request := Record(Join(HostHeaders(TextsOf(r.hosts)), Maybe(Path, TextsOf(r.paths))));
    var header := Record(Join(One(Type, Str("http")), One(Request, request)));
    var j := TcpJson(r);
    assert j == Record(One(Header, header));
    hide TcpJson;
    OneReads(Header, header);
    OneReads(Type, Str("http"));
    OneReads(Request, request);
    JoinReads(One(Type, Str("http")), One(Request, request));
    KeyReads(j, Header);
    KeyReads(header, Request);
    HostHeadersRead(TextsOf(r.hosts));
    MaybeReads(Path, TextsOf(r.paths));
    JoinReads(HostHeaders(TextsOf(r.hosts)), Maybe(Path, TextsOf(r.paths)));
    KeyReads(request, Headers);
    KeyReads(request, Path);
    TextsReadBack(r.paths, request, Path);
    HeadersRead(r.hosts, Part(request, Headers));
  }

  lemma HeadersRead(hosts: Option<seq<string>>, headers: Json)
    requires headers == if TextsOf(hosts).Some? then Obj(map[Host := TextsOf(hosts).value]) else Null
    ensures TextsAt(headers, Host) == hosts
  {
    if hosts.Some? {
      HostInHeaders(TextsOf(hosts).value);
    }
    TextsReadBack(hosts, headers, Host);
  }

  lemma HysteriaBlockReads(version: nat, auth: Option<string>, j: Json)
    requires j == Record(Join(One(Version, Num(version)), Maybe(Auth, TextOf(auth))))
    ensures NatAt(j, Version) == Some(version) && TextAt(j, Auth) == auth
  {
    hide Join, Maybe, In, One, TextOf, CleanFields, Clean;
    OneReads(Version, Num(version));
    MaybeReads(Auth, TextOf(auth));
    JoinReads(One(Version, Num(version)), Maybe(Auth, TextOf(auth)));
    KeyReads(j, Version);
    KeyReads(j, Auth);
    TextReads(j, Auth, auth);
  }

  // ---- The stream ----

  /** The keys a transport's block may be written under. */
  predicate IsBlockKey(key: Key) {
    key in {WsSettings, XhttpSettings, HttpUpgradeSettings, GrpcSettings, HttpSettings, KcpSettings, HysteriaSettings,
            TcpSettings}
  }

  lemma BlockKey(s: O.Server)
    ensures var block := BlockEntry(s, map[]); block.Some? ==> IsBlockKey(block.value.0)
  {
    hide O.BuildBlock, TcpJson, KcpJson, GrpcJson, XhttpJson, PathAndHost, HostHeaders, Join, Maybe, One, TextOf,
         TextsOf;
  }

  lemma SecurityReads(s: O.Server)
    ensures var stream, fields := O.BuildStream(s), SecurityJson(s);
            && In(fields, Security)
               == Some(Str(if stream.reality.Some? then "reality" else if stream.tls.Some? then "tls" else "none"))
            && In(fields, RealitySettings)
               == (if stream.reality.Some? then Some(RealityJson(stream.reality.value)) else None)
            && In(fields, TlsSettings) ==
               (if stream.reality.None? && stream.tls.Some? then Some(TlsJson(stream.tls.value)) else None)
            && forall key :: key !in {Security, RealitySettings, TlsSettings} ==> In(fields, key) == None
  {
    hide RealityJson, TlsJson, In, Join, One, O.BuildTls, O.BuildReality, O.BuildBlock, CleanFields, Clean;
    var stream := O.BuildStream(s);
    OneReads(Security, Str("none"));
    if stream.reality.Some? {
      TwoRead(Security, Str("reality"), RealitySettings, RealityJson(stream.reality.value));
    } else if stream.tls.Some? {
      TwoRead(Security, Str("tls"), TlsSettings, TlsJson(stream.tls.value));
    }
  }

  lemma TwoRead(a: Key, va: Json, b: Key, vb: Json)
    requires a != b
    ensures var fields := Join(One(a, va), One(b, vb));
            && In(fields, a) == Some(va) && In(fields, b) == Some(vb)
            && forall key :: key !in {a, b} ==> In(fields, key) == None
  {
    hide Clean, CleanFields;
  }

  /** The network and security, the block and the socket options, as the stream joins them. */
  function StreamFields(name: Json, security: map<Key, Json>, block: Option<(Key, Json)>): map<Key, Json> {
    var network := Join(One(Network, name), security);
    Join(if block.Some? then Join(network, One(block.value.0, block.value.1)) else network,
         One(Sockopt, MarkedSockopt()))
  }

  lemma StreamFieldsRead(name: Json, security: map<Key, Json>, block: Option<(Key, Json)>, key: Key)
    requires block.Some? ==> IsBlockKey(block.value.0)
    requires forall other :: other !in {Security, RealitySettings, TlsSettings} ==> In(security, other) == None
    ensures In(StreamFields(name, security, block), key) ==
            if key == Network then Some(name)
            else if key == Sockopt then Some(MarkedSockopt())
            else if key in {Security, RealitySettings, TlsSettings} then In(security, key)
            else if block.Some? && key == block.value.0 then Some(block.value.1)
            else None
  {
    hide In, Join, One, MarkedSockopt;
    var network, last := Join(One(Network, name), security), One(Sockopt, MarkedSockopt());
    OneReads(Network, name);
    JoinReads(One(Network, name), security);
    OneReads(Sockopt, MarkedSockopt());
    if block.Some? {
      OneReads(block.value.0, block.value.1);
      JoinReads(network, One(block.value.0, block.value.1));
      JoinReads(Join(network, One(block.value.0, block.value.1)), last);
    } else {
      JoinReads(network, last);
    }
  }

  lemma StreamIsFields(s: O.Server)
    ensures StreamJson(s, map[])
         == Obj(StreamFields(Str(NetworkName(O.XrayNetwork(s.transport))), SecurityJson(s), BlockEntry(s, map[])))
  {
    hide SecurityJson, BlockEntry, MarkedSockopt, NetworkName, O.XrayNetwork, Join, One, Clean, CleanFields;
  }

  lemma StreamKeys(s: O.Server, key: Key)
    ensures var j, block := StreamJson(s, map[]), BlockEntry(s, map[]);
            && j.Obj?
            && Get(j, key) ==
               if key == Network then Some(Str(NetworkName(O.XrayNetwork(s.transport))))
               else if key == Sockopt then Some(MarkedSockopt())
               else if key in {Security, RealitySettings, TlsSettings} then In(SecurityJson(s), key)
               else if block.Some? && key == block.value.0 then Some(block.value.1)
               else None
  {
    StreamIsFields(s);
    BlockKey(s);
    SecurityReads(s);
    hide StreamJson, SecurityJson, BlockEntry, MarkedSockopt, NetworkName, O.XrayNetwork, StreamFields, O.BuildStream,
         In, Get;
    StreamFieldsRead(Str(NetworkName(O.XrayNetwork(s.transport))), SecurityJson(s), BlockEntry(s, map[]), key);
    KeyReads(StreamJson(s, map[]), key);
  }

  lemma SecurityPart(s: O.Server)
    ensures var j, stream := StreamJson(s, map[]), O.BuildStream(s);
            && TextAt(j, Security).Some? && Some(ReadSecurity(TextAt(j, Security).value)) == stream.security
            && (if Get(j, RealitySettings).Some? then Some(ReadReality(Part(j, RealitySettings))) else None)
               == stream.reality
            && (if Get(j, TlsSettings).Some? then Some(ReadTls(Part(j, TlsSettings))) else None) == stream.tls
  {
    hide StreamJson, SecurityJson, BlockEntry, MarkedSockopt, NetworkName, O.XrayNetwork, In, O.BuildBlock,
         O.BuildTls, O.BuildReality, RealityJson, TlsJson, ReadReality, ReadTls;
    var stream := O.BuildStream(s);
    SecurityReads(s);
    NamesApart();
    StreamKeys(s, Security);
    StreamKeys(s, RealitySettings);
    StreamKeys(s, TlsSettings);
    if stream.reality.Some? {
      RealityReads(stream.reality.value);
    }
    if stream.tls.Some? {
      TlsReads(stream.tls.value);
    }
  }

  lemma NetworkPart(s: O.Server)
    ensures var j := StreamJson(s, map[]);
            && TextAt(j, Network).Some? && ReadNetwork(TextAt(j, Network).value) == O.XrayNetwork(s.transport)
            && NatAt(Part(j, Sockopt), Mark) == Some(XRAY_DIAL_MARK)
  {
    hide StreamJson, SecurityJson, BlockEntry, MarkedSockopt, NetworkName, O.XrayNetwork, In, ReadNetwork, NatAt;
    NetworkReads(s);
    MarkReads();
    StreamKeys(s, Network);
    StreamKeys(s, Sockopt);
  }

  lemma BlockPart(s: O.Server)
    ensures ReadBlock(O.XrayNetwork(s.transport), StreamJson(s, map[])) == O.BuildBlock(s)
  {
    hide StreamJson, SecurityJson, BlockEntry, MarkedSockopt, NetworkName, O.XrayNetwork, In, ReadBlock, O.BuildBlock,
         Get;
    var j := StreamJson(s, map[]);
    forall key | IsBlockKey(key)
      ensures var block := BlockEntry(s, map[]);
              Get(j, key) == if block.Some? && key == block.value.0 then Some(block.value.1) else None
    {
      StreamKeys(s, key);
    }
    StreamKeys(s, Network);
    hide IsBlockKey;
    BlockReads(s, j);
  }

  /** The stream settings read back as they were built. */
  lemma StreamReadsBack(s: O.Server)
    ensures ReadStream(StreamJson(s, map[])) == O.BuildStream(s)
  {
    hide StreamJson, O.XrayNetwork, ReadBlock, O.BuildBlock, O.BuildTls, O.BuildReality, ReadReality, ReadTls,
         ReadNetwork, ReadSecurity, NatAt, TextAt, Get, Part;
    SecurityPart(s);
    NetworkPart(s);
    BlockPart(s);
  }

  lemma MarkReads()
    ensures NatAt(MarkedSockopt(), Mark) == Some(XRAY_DIAL_MARK)
  {
  }

  lemma NetworkReads(s: O.Server)
    ensures ReadNetwork(NetworkName(O.XrayNetwork(s.transport))) == O.XrayNetwork(s.transport)
  {
    NamesApart();
  }

  lemma NamesApart()
    ensures "xhttp" != "ws" && "xhttp" != "grpc" && "xhttp" != "http" && "xhttp" != "kcp" && "ws" != "grpc"
    ensures "grpc" != "http" && "http" != "httpupgrade" && "tcp" != "kcp" && "tcp" != "ws" && "tcp" != "http"
    ensures "reality" != "tls" && "tls" != "none"
  {
  }

  lemma WsBlockReads(p: O.PathSettings, j: Json, value: Json)
    requires Get(j, WsSettings) == Some(value) && p.mode.None?
    requires value == Record(Join(Maybe(Path, TextOf(p.path)), HostHeaders(TextOf(p.host))))
    ensures ReadBlock(O.Ws, j) == O.WsBlock(p)
  {
    WsReads(p, value);
    hide TextAt, Join, Maybe, HostHeaders;
  }

  lemma XhttpBlockReads(s: O.Server, p: O.PathSettings, j: Json)
    requires Get(j, XhttpSettings) == Some(XhttpJson(s, p, map[]))
    ensures ReadBlock(O.Xhttp, j) == O.XhttpBlock(p)
  {
    XhttpReads(s, p);
    hide TextAt, XhttpJson;
  }

  lemma HttpUpgradeBlockReads(p: O.PathSettings, j: Json)
    requires Get(j, HttpUpgradeSettings) == Some(PathAndHost(TextOf(p.path), TextOf(p.host))) && p.mode.None?
    ensures ReadBlock(O.HttpUpgrade, j) == O.HttpUpgradeBlock(p)
  {
    hide TextAt, PathAndHost, TextOf, Get;
    var value := PathAndHost(TextOf(p.path), TextOf(p.host));
    PathAndHostRead(TextOf(p.path), TextOf(p.host));
    TextReads(value, Path, p.path);
    TextReads(value, Host, p.host);
  }

  lemma GrpcBlockReads(g: O.GrpcSettings, j: Json)
    requires Get(j, GrpcSettings) == Some(GrpcJson(g))
    ensures ReadBlock(O.Grpc, j) == O.GrpcBlock(g)
  {
    GrpcReads(g);
    hide TextAt, BoolAt, GrpcJson;
  }

  lemma HttpBlockReads(h: O.HttpSettings, j: Json)
    requires Get(j, HttpSettings) == Some(PathAndHost(TextOf(h.path), TextsOf(h.hosts)))
    ensures ReadBlock(O.Http, j) == O.HttpBlock(h)
  {
    hide TextAt, TextsAt, PathAndHost, TextOf, TextsOf, Get;
    var value := PathAndHost(TextOf(h.path), TextsOf(h.hosts));
    PathAndHostRead(TextOf(h.path), TextsOf(h.hosts));
    TextReads(value, Path, h.path);
    TextsReadBack(h.hosts, value, Host);
  }

  lemma KcpBlockReads(k: O.KcpSettings, j: Json)
    requires Get(j, KcpSettings) == Some(KcpJson(k))
    ensures ReadBlock(O.Kcp, j) == O.KcpBlock(k)
  {
    KcpReads(k);
    hide TextAt, KcpJson;
  }

  lemma HysteriaReadsBlock(version: nat, auth: Option<string>, j: Json, value: Json)
    requires Get(j, HysteriaSettings) == Some(value)
    requires value == Record(Join(One(Version, Num(version)), Maybe(Auth, TextOf(auth))))
    ensures ReadBlock(O.HysteriaTransport, j) == O.HysteriaBlock(version, auth)
  {
    hide TextAt, NatAt, Join, Maybe, One, TextOf, Get, Clean, CleanFields;
    HysteriaBlockReads(version, auth, value);
  }

  lemma TcpBlockReads(t: O.TcpRequest, j: Json)
    requires Get(j, TcpSettings) == Some(TcpJson(t))
    ensures ReadBlock(O.Tcp, j) == O.TcpBlock(t)
  {
    TcpReads(t);
    hide TextsAt, TcpJson;
  }

  lemma NoBlockReads(j: Json)
    requires Get(j, TcpSettings).None?
    ensures ReadBlock(O.Tcp, j) == O.NoBlock
  {
  }

  /** The block of the transport reads back from under its key. */
  lemma BlockReads(s: O.Server, j: Json)
    requires j.Obj?
    requires var block := BlockEntry(s, map[]);
             forall key :: IsBlockKey(key) ==>
               Get(j, key) == if block.Some? && key == block.value.0 then Some(block.value.1) else None
    ensures ReadBlock(O.XrayNetwork(s.transport), j) == O.BuildBlock(s)
  {
    BlockNetwork(s);
    var block, entry := O.BuildBlock(s), BlockEntry(s, map[]);
    hide O.BuildBlock, O.XrayNetwork, ReadBlock, TextOf, TextsOf, Join, Maybe, One, HostHeaders, PathAndHost, XhttpJson,
         GrpcJson, KcpJson, TcpJson, Clean, CleanFields, Get;
    if block.NoBlock? {
      NoBlockReads(j);
    } else if block.WsBlock? {
      WsBlockReads(block.settings, j, entry.value.1);
    } else if block.XhttpBlock? {
      XhttpBlockReads(s, block.settings, j);
    } else if block.HttpUpgradeBlock? {
      HttpUpgradeBlockReads(block.settings, j);
    } else if block.GrpcBlock? {
      GrpcBlockReads(block.grpc, j);
    } else if block.HttpBlock? {
      HttpBlockReads(block.http, j);
    } else if block.KcpBlock? {
      KcpBlockReads(block.kcp, j);
    } else if block.HysteriaBlock? {
      HysteriaReadsBlock(block.version, block.auth, j, entry.value.1);
    } else {
      TcpBlockReads(block.request, j);
    }
  }

  /** Which block belongs to which transport. */
  lemma BlockNetwork(s: O.Server)
    ensures var block, network := O.BuildBlock(s), O.XrayNetwork(s.transport);
            && (block.WsBlock? <==> network == O.Ws) && (block.XhttpBlock? <==> network == O.Xhttp)
            && (block.HttpUpgradeBlock? <==> network == O.HttpUpgrade) && (block.GrpcBlock? <==> network == O.Grpc)
            && (block.HttpBlock? <==> network == O.Http) && (block.KcpBlock? <==> network == O.Kcp)
            && (block.HysteriaBlock? <==> network == O.HysteriaTransport)
            && (block.NoBlock? || block.TcpBlock? <==> network == O.Tcp)
            && (block.WsBlock? || block.HttpUpgradeBlock? ==> block.settings.mode.None?)
  {
    hide SplitList;
  }

  // ---- The outbound ----

  lemma ProtocolReads(s: O.Server)
    requires s.protocol != O.Wireguard
    ensures ReadProtocol(ProtocolName(s.protocol)) == O.PrintedProtocol(s.protocol)
  {
    assert "vmess" != "vless" && "http" != "socks" && "trojan" != "socks";
  }

  lemma LabelledReads(protocol: string, settings: Json, stream: Json)
    ensures var j := Labelled(protocol, Join(One(Settings, settings), One(StreamSettings, stream)));
            && TextAt(j, Tag) == Some("proxy") && TextAt(j, Protocol) == Some(protocol)
            && Get(j, Settings) == Some(settings) && Get(j, StreamSettings) == Some(stream)
  {
    hide Clean, CleanFields;
  }

  /** The JSON of every printed server reads back as the outbound it was printed from. */
  lemma PrintedReadsBack(s: O.Server, w: WireGuard)
    requires s.protocol != O.Wireguard
    ensures ReadOutbound(Printed(s, w, map[])) == O.Build(s)
  {
    var settings, stream := ObjectJson(O.BuildSettings(s)), StreamJson(s, map[]);
    ProtocolReads(s);
    LabelledReads(ProtocolName(s.protocol), settings, stream);
    ObjectReadsBack(O.BuildSettings(s));
    StreamReadsBack(s);
    hide ObjectJson, StreamJson, ReadObject, ReadStream, O.BuildSettings, O.BuildStream, ReadProtocol, ProtocolName,
         Labelled, O.PrintedProtocol;
  }

  // ---- WireGuard ----

  lemma PeersRead(s: O.Server, w: WireGuard)
    ensures var peers := PeersJson(s, w);
            && peers.Arr? && |peers.items| == 1
            && TextAt(peers.items[0], Endpoint) == Some(s.host + ":" + PrintNat(s.port))
            && TextAt(peers.items[0], PublicKey) == Some(if s.publicKey.Some? then s.publicKey.value else "")
            && TextAt(peers.items[0], PreSharedKey) == (if w.preSharedKey == Some("") then None else w.preSharedKey)
  {
    hide In, Join, One, Maybe, PrintNat, Clean, CleanFields, TextOf, TextAt;
    var endpoint, key := Str(s.host + ":" + PrintNat(s.port)), Str(O.Or(s.publicKey, ""));
    var shared := O.NonEmpty(w.preSharedKey);
    var peer := Record(Join(Join(One(Endpoint, endpoint), One(PublicKey, key)), Maybe(PreSharedKey, TextOf(shared))));
    assert PeersJson(s, w) == List([peer]);
    hide PeersJson;
    OneReads(Endpoint, endpoint);
    OneReads(PublicKey, key);
    MaybeReads(PreSharedKey, TextOf(shared));
    JoinReads(One(Endpoint, endpoint), One(PublicKey, key));
    JoinReads(Join(One(Endpoint, endpoint), One(PublicKey, key)), Maybe(PreSharedKey, TextOf(shared)));
    KeyReads(peer, Endpoint);
    KeyReads(peer, PublicKey);
    KeyReads(peer, PreSharedKey);
    StrReads(peer, Endpoint, endpoint.text);
    StrReads(peer, PublicKey, key.text);
    TextReads(peer, PreSharedKey, shared);
  }

  lemma StrReads(j: Json, key: Key, text: string)
    requires Get(j, key) == Some(Str(text))
    ensures TextAt(j, key) == Some(text)
  {
  }

  lemma GroupsReadAt(a: map<Key, Json>, b: map<Key, Json>, c: map<Key, Json>, key: Key)
    ensures In(Join(Join(a, b), c), key) == OrElse(In(c, key), OrElse(In(b, key), In(a, key)))
  {
    hide In, Join;
    JoinReads(a, b);
    JoinReads(Join(a, b), c);
  }

  lemma PairReadsAt(a: map<Key, Json>, b: map<Key, Json>, key: Key)
    ensures In(Join(a, b), key) == OrElse(In(b, key), In(a, key))
  {
    hide In, Join;
    JoinReads(a, b);
  }

  lemma OneReadsAt(own: Key, value: Json, key: Key)
    ensures In(One(own, value), key) == if key == own then Some(value) else None
  {
    OneReads(own, value);
  }

  lemma MaybeReadsAt(own: Key, value: Option<Json>, key: Key)
    ensures In(Maybe(own, value), key) == if key == own then value else None
  {
    MaybeReads(own, value);
  }

  /** What each key of the settings of a WireGuard server is. */
  function WireGuardField(s: O.Server, w: WireGuard, key: Key): Option<Json> {
    if key == SecretKey then Some(Str(s.uuid))
    else if key == Address then Some(LocalAddresses(w))
    else if key == Peers then Some(PeersJson(s, w))
    else if key == NoKernelTun then Some(Bool(true))
    else if key == DomainStrategy then Some(Str(if w.domainStrategy.Some? then w.domainStrategy.value else "ForceIP"))
    else if key == Mtu then NumOf(w.mtu)
    else if key == Reserved && w.reserved != [] then Some(Bytes(w.reserved))
    else None
  }

  function KeyGroup(s: O.Server, w: WireGuard): map<Key, Json> {
    Join(Join(One(SecretKey, Str(s.uuid)), One(Address, LocalAddresses(w))), One(Peers, PeersJson(s, w)))
  }

  function FixedGroup(w: WireGuard): map<Key, Json> {
    Join(One(NoKernelTun, Bool(true)), One(DomainStrategy, Str(O.Or(w.domainStrategy, "ForceIP"))))
  }

  function OptionGroup(w: WireGuard): map<Key, Json> {
    Join(Maybe(Mtu, NumOf(w.mtu)), Maybe(Reserved, if w.reserved != [] then Some(Bytes(w.reserved)) else None))
  }

  lemma WireGuardGroups(s: O.Server, w: WireGuard)
    ensures WireGuardJson(s, w) == Obj(Join(Join(KeyGroup(s, w), FixedGroup(w)), OptionGroup(w)))
  {
    hide Join, One, Maybe, NumOf, LocalAddresses, PeersJson, Bytes, Clean, CleanFields;
  }

  lemma KeyGroupReads(s: O.Server, w: WireGuard, key: Key)
    ensures In(KeyGroup(s, w), key) ==
            if key == SecretKey then Some(Str(s.uuid)) else if key == Address then Some(LocalAddresses(w))
            else if key == Peers then Some(PeersJson(s, w)) else None
  {
    hide In, Join, One, LocalAddresses, PeersJson;
    GroupsReadAt(One(SecretKey, Str(s.uuid)), One(Address, LocalAddresses(w)), One(Peers, PeersJson(s, w)), key);
    OneReadsAt(SecretKey, Str(s.uuid), key);
    OneReadsAt(Address, LocalAddresses(w), key);
    OneReadsAt(Peers, PeersJson(s, w), key);
  }

  lemma FixedGroupReads(w: WireGuard, key: Key)
    ensures In(FixedGroup(w), key) ==
            if key == NoKernelTun then Some(Bool(true))
            else if key == DomainStrategy
            then Some(Str(if w.domainStrategy.Some? then w.domainStrategy.value else "ForceIP"))
            else None
  {
    hide In, Join, One;
    var strategy := Str(O.Or(w.domainStrategy, "ForceIP"));
    PairReadsAt(One(NoKernelTun, Bool(true)), One(DomainStrategy, strategy), key);
    OneReadsAt(NoKernelTun, Bool(true), key);
    OneReadsAt(DomainStrategy, strategy, key);
  }

  lemma OptionGroupReads(w: WireGuard, key: Key)
    ensures In(OptionGroup(w), key) ==
            if key == Mtu then NumOf(w.mtu)
            else if key == Reserved && w.reserved != [] then Some(Bytes(w.reserved))
            else None
  {
    hide In, Join, Maybe, NumOf, Bytes;
    var reserved := if w.reserved != [] then Some(Bytes(w.reserved)) else None;
    PairReadsAt(Maybe(Mtu, NumOf(w.mtu)), Maybe(Reserved, reserved), key);
    MaybeReadsAt(Mtu, NumOf(w.mtu), key);
    MaybeReadsAt(Reserved, reserved, key);
  }

  lemma WireGuardFieldIs(s: O.Server, w: WireGuard, key: Key)
    ensures WireGuardField(s, w, key) ==
            OrElse(OrElse(In(OptionGroup(w), key), In(FixedGroup(w), key)), In(KeyGroup(s, w), key))
  {
    hide In, NumOf, LocalAddresses, PeersJson, Bytes, KeyGroup, FixedGroup, OptionGroup, Clean, CleanFields,
         CleanOption;
    KeyGroupReads(s, w, key);
    FixedGroupReads(w, key);
    OptionGroupReads(w, key);
  }

  /** The private key, the addresses, the peer and the options of a WireGuard server are printed under their keys. */
  lemma WireGuardReads(s: O.Server, w: WireGuard, key: Key)
    ensures Get(WireGuardJson(s, w), key) == WireGuardField(s, w, key)
  {
    hide In, Join, NumOf, LocalAddresses, PeersJson, Bytes, Get, WireGuardJson, KeyGroup, FixedGroup, OptionGroup,
         Clean, CleanFields, CleanOption, WireGuardField;
    WireGuardFieldIs(s, w, key);
    WireGuardGroups(s, w);
    KeyReads(WireGuardJson(s, w), key);
    GroupsReadAt(KeyGroup(s, w), FixedGroup(w), OptionGroup(w), key);
  }

  /** The addresses are those listed, or 10.0.0.1/32 when the list says nothing; the reserved bytes are as given. */
  lemma WireGuardLists(s: O.Server, w: WireGuard)
    ensures var listed := if w.localAddress.Some? then SplitList(w.localAddress.value) else [];
            TextsAt(WireGuardJson(s, w), Address) == Some(if listed == [] then ["10.0.0.1/32"] else listed)
    ensures w.reserved != [] ==>
              var bytes := Get(WireGuardJson(s, w), Reserved);
              && bytes.Some? && bytes.value.Arr? && |bytes.value.items| == |w.reserved|
              && forall i :: 0 <= i < |w.reserved| ==> bytes.value.items[i] == Num(w.reserved[i])
  {
    WireGuardReads(s, w, Address);
    WireGuardReads(s, w, Reserved);
    hide WireGuardJson, SplitList;
    var listed := if w.localAddress.Some? then SplitList(w.localAddress.value) else [];
    TextsReadBack(Some(if listed == [] then ["10.0.0.1/32"] else listed), WireGuardJson(s, w), Address);
  }
}

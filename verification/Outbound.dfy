/**
 Printing a server as an Xray proxy outbound, and reading an outbound back into a server.

 Documents are records of the keys the two sides know; an absent key is `None`. Protocols, transports
 and security layers are closed vocabularies in lower case, with room for any other word.
 */
module Outbound {
  import opened Basics
  import opened Text
  import opened Marks

  datatype Protocol =
    | Vless | Vmess | Trojan | Shadowsocks | Hysteria | HttpProxy | Socks | Wireguard | OtherProtocol(name: string)

  datatype Transport =
    | Blank | Raw | Tcp | Xhttp | SplitHttp | Ws | WebSocket | Grpc | Gun | HttpUpgrade | Http | H2 | H3 | Kcp | Mkcp
    | HysteriaTransport | OtherTransport(name: string)

  datatype Security = Reality | Tls | NoSecurity | OtherSecurity(name: string)

  /** The subscription parameters the printer reads. */
  datatype Param = Spx | AllowInsecure | Alpn | HostHeader | ServiceName | Authority | Scy | Aid | HeaderType | Seed

  datatype Server = Server(
    protocol: Protocol,
    uuid: string,
    password: Option<string>,
    cipher: Option<string>,
    host: string,
    port: nat,
    transport: Transport,
    security: Security,
    sni: Option<string>,
    fingerprint: Option<string>,
    publicKey: Option<string>,
    shortId: Option<string>,
    flow: Option<string>,
    path: Option<string>,
    mode: Option<string>,
    params: map<Param, string>)

  /** A settings, endpoint or user object. */
  datatype Object = Object(
    address: Option<string>, port: Option<nat>,
    id: Option<string>, flow: Option<string>, security: Option<string>, encryption: Option<string>,
    alterId: Option<nat>,
    password: Option<string>, cipher: Option<string>, uot: Option<bool>,
    user: Option<string>, username: Option<string>, pass: Option<string>,
    version: Option<nat>, auth: Option<string>,
    users: Listing, vnext: Listing, servers: Listing)

  /** A key that may hold a list of objects. */
  datatype Listing = Unlisted | Listed(items: seq<Object>)

  const NOTHING := Object(None, None, None, None, None, None, None, None, None, None, None, None, None, None, None,
                          Unlisted, Unlisted, Unlisted)

  datatype RealitySettings = RealitySettings(
    serverName: Option<string>, fingerprint: Option<string>, publicKey: Option<string>, shortId: Option<string>,
    spiderX: Option<string>)

  datatype TlsSettings = TlsSettings(
    serverName: Option<string>, fingerprint: Option<string>, allowInsecure: Option<bool>, alpn: Option<seq<string>>)

  /** `wsSettings`, `xhttpSettings` and `httpupgradeSettings` share these keys. */
  datatype PathSettings = PathSettings(path: Option<string>, mode: Option<string>, host: Option<string>)

  datatype GrpcSettings = GrpcSettings(serviceName: Option<string>, multiMode: Option<bool>, authority: Option<string>)

  datatype HttpSettings = HttpSettings(path: Option<string>, hosts: Option<seq<string>>)

  datatype KcpSettings = KcpSettings(headerType: Option<string>, seed: Option<string>)

  datatype TcpRequest = TcpRequest(hosts: Option<seq<string>>, paths: Option<seq<string>>)

  /** The transport-specific block of `streamSettings`. */
  datatype Block =
    | NoBlock
    | WsBlock(settings: PathSettings)
    | XhttpBlock(settings: PathSettings)
    | HttpUpgradeBlock(settings: PathSettings)
    | GrpcBlock(grpc: GrpcSettings)
    | HttpBlock(http: HttpSettings)
    | KcpBlock(kcp: KcpSettings)
    | HysteriaBlock(version: nat, auth: Option<string>)
    | TcpBlock(request: TcpRequest)

  datatype Stream = Stream(
    network: Option<Transport>,
    security: Option<Security>,
    reality: Option<RealitySettings>,
    tls: Option<TlsSettings>,
    block: Block,
    mark: Option<nat>)

  datatype OutboundDoc = OutboundDoc(tag: string, protocol: Protocol, settings: Option<Object>, stream: Option<Stream>)

  // ---- The printer ----

  function Get(s: Server, param: Param): Option<string> {
    if param in s.params then Some(s.params[param]) else None
  }

  function NonEmpty(value: Option<string>): Option<string> {
    if value.Some? && value.value != "" then value else None
  }

  function Or(value: Option<string>, fallback: string): string {
    if value.Some? then value.value else fallback
  }

  function XrayNetwork(transport: Transport): Transport {
    match transport
    case Xhttp => Xhttp
    case SplitHttp => Xhttp
    case Ws => Ws
    case WebSocket => Ws
    case Grpc => Grpc
    case Gun => Grpc
    case HttpUpgrade => HttpUpgrade
    case Http => Http
    case H2 => Http
    case H3 => Http
    case Kcp => Kcp
    case Mkcp => Kcp
    case HysteriaTransport => HysteriaTransport
    case _ => Tcp
  }

  function ServerName(s: Server): string { Or(NonEmpty(s.sni), s.host) }

  function Fingerprint(s: Server): string { Or(NonEmpty(s.fingerprint), "chrome") }

  predicate Insecure(s: Server) {
    Get(s, AllowInsecure) == Some("1") || Get(s, AllowInsecure) == Some("true")
  }

  function BuildReality(s: Server): RealitySettings {
    RealitySettings(Some(ServerName(s)), Some(Fingerprint(s)), Some(Or(s.publicKey, "")), Some(Or(s.shortId, "")),
                    Some(Or(Get(s, Spx), "/")))
  }

  function BuildTls(s: Server): TlsSettings {
    var alpn := NonEmpty(Get(s, Alpn));
    TlsSettings(Some(ServerName(s)), Some(Fingerprint(s)), Some(Insecure(s)),
                if alpn.Some? then Some(SplitList(alpn.value)) else None)
  }

  function BuildBlock(s: Server): Block {
    var host := NonEmpty(Get(s, HostHeader));
    var path := Some(Or(s.path, "/"));
    var network := XrayNetwork(s.transport);
    if network == Xhttp then XhttpBlock(PathSettings(path, Some(Or(s.mode, "auto")), host))
    else if network == Ws then WsBlock(PathSettings(path, None, host))
    else if network == HttpUpgrade then HttpUpgradeBlock(PathSettings(path, None, host))
    else if network == Grpc then
      GrpcBlock(GrpcSettings(Some(Or(Get(s, ServiceName), "")), Some(s.mode == Some("multi") || s.mode == Some("gun")),
                             NonEmpty(Get(s, Authority))))
    else if network == Http then HttpBlock(HttpSettings(path, if host.Some? then Some(SplitList(host.value)) else None))
    else if network == Kcp then KcpBlock(KcpSettings(Some(Or(Get(s, HeaderType), "none")), NonEmpty(Get(s, Seed))))
    else if network == HysteriaTransport then HysteriaBlock(2, Some(s.uuid))
    else if Get(s, HeaderType) == Some("http") then
      TcpBlock(TcpRequest(if host.Some? then Some(SplitList(host.value)) else None,
                          if s.path.Some? then Some(SplitList(s.path.value)) else None))
    else NoBlock
  }

  function BuildStream(s: Server): Stream {
    Stream(Some(XrayNetwork(s.transport)),
           Some(if s.security == Reality || s.security == Tls then s.security else NoSecurity),
           if s.security == Reality then Some(BuildReality(s)) else None,
           if s.security == Tls then Some(BuildTls(s)) else None,
           BuildBlock(s),
           Some(XRAY_DIAL_MARK))
  }

  function AlterId(s: Server): nat {
    var aid := Get(s, Aid);
    if aid.Some? && ParseU32(aid.value).Some? then ParseU32(aid.value).value else 0
  }

  function BuildSettings(s: Server): Object {
    var endpoint := NOTHING.(address := Some(s.host), port := Some(s.port));
    match s.protocol
    case Vmess =>
      var user := NOTHING.(id := Some(s.uuid), security := Some(Or(Get(s, Scy), "auto")), alterId := Some(AlterId(s)));
      NOTHING.(vnext := Listed([endpoint.(users := Listed([user]))]))
    case Trojan =>
      NOTHING.(servers := Listed([endpoint.(password := Some(Or(s.password, s.uuid)), flow := Some(Or(s.flow, "")))]))
    case Shadowsocks =>
      NOTHING.(servers := Listed([endpoint.(cipher := Some(Or(s.cipher, "")), password := Some(Or(s.password, "")),
                                          uot := Some(true))]))
    case Hysteria => endpoint.(version := Some(2))
    case HttpProxy => SimpleSettings(s)
    case Socks => SimpleSettings(s)
    case _ =>
      var user := NOTHING.(id := Some(s.uuid), encryption := Some("none"), flow := Some(Or(s.flow, "")));
      NOTHING.(vnext := Listed([endpoint.(users := Listed([user]))]))
  }

  function SimpleSettings(s: Server): Object {
    NOTHING.(address := Some(s.host), port := Some(s.port), user := NonEmpty(Some(s.uuid)),
             pass := NonEmpty(s.password))
  }

  function PrintedProtocol(protocol: Protocol): Protocol {
    if protocol.OtherProtocol? then Vless else protocol
  }

  /** `build_proxy_outbound` for a server that carries no provider JSON and is not WireGuard. */
  function Build(s: Server): OutboundDoc
    requires s.protocol != Wireguard
  {
    OutboundDoc("proxy", PrintedProtocol(s.protocol), Some(BuildSettings(s)), Some(BuildStream(s)))
  }

  // ---- The parser ----

  /** A string key counts only when it is not empty. */
  function Str(value: Option<string>): Option<string> { NonEmpty(value) }

  function DirectOrFirst(settings: Object, list: Listing): Option<Object> {
    if settings.address.Some? then Some(settings)
    else if list.Listed? && list.items != [] then Some(list.items[0])
    else None
  }

  function NormalizeNetwork(network: Transport): Transport {
    match network
    case Raw => Tcp
    case SplitHttp => Xhttp
    case H2 => Http
    case other => other
  }

  function Base(protocol: Protocol, host: string, port: nat): Server {
    Server(protocol, "", None, None, host, port, Tcp, NoSecurity, None, None, None, None, None, None, None, map[])
  }

  /** The stand-in host providers use for an entry that is not a server. */
  predicate IsBalancerSentinel(host: string) {
    Lowered(Trim(host)) == "balancer.host"
  }

  function PutSome(params: map<Param, string>, param: Param, value: Option<string>): map<Param, string> {
    if value.Some? then params[param := value.value] else params
  }

  function ParseUser(protocol: Protocol, endpoint: Object, host: string, port: nat): Option<Server> {
    var user := if endpoint.users.Listed? && endpoint.users.items != [] then endpoint.users.items[0] else endpoint;
    var id := Str(user.id);
    if id.None? then None
    else
      var s := Base(protocol, host, port).(uuid := id.value, flow := Str(user.flow));
      if protocol != Vmess then Some(s)
      else
        var params := PutSome(map[], Scy, Str(user.security));
        Some(s.(params := if user.alterId.Some? then params[Aid := PrintNat(user.alterId.value)] else params))
  }

  /** What `json_str_any` makes of one key: the trimmed text, when that says anything. */
  function Word(value: Option<string>): Option<string> {
    if value.Some? && Trim(value.value) != "" then Some(Trim(value.value)) else None
  }

  function ParseLogin(protocol: Protocol, srv: Object, host: string, port: nat): Server {
    var login := if srv.users.Listed? && srv.users.items != [] then srv.users.items[0] else srv;
    Base(protocol, host, port).(uuid := Or(OrElse(Word(login.user), Word(login.username)), ""),
                                password := OrElse(Word(login.pass), Word(login.password)))
  }

  function ParseHysteria(settings: Object, stream: Option<Stream>, host: string, port: nat): Server {
    var auth := if stream.Some? && stream.value.block.HysteriaBlock? then Str(stream.value.block.auth) else None;
    Base(Hysteria, host, port).(uuid := Or(OrElse(auth, Str(settings.auth)), ""))
  }

  /** The server before its stream settings are read. */
  function ParseSettings(ob: OutboundDoc): Option<Server> {
    if ob.settings.None? then None
    else
      var settings := ob.settings.value;
      var list := if ob.protocol == Vless || ob.protocol == Vmess then settings.vnext else settings.servers;
      var endpoint := if ob.protocol == Hysteria then Some(settings) else DirectOrFirst(settings, list);
      if endpoint.None? || Str(endpoint.value.address).None? || endpoint.value.port.None? then None
      else
        var host, port, srv := Str(endpoint.value.address).value, endpoint.value.port.value, endpoint.value;
        match ob.protocol
        case Vless => ParseUser(Vless, srv, host, port)
        case Vmess => ParseUser(Vmess, srv, host, port)
        case Trojan =>
          var password := Str(srv.password);
          if password.None? then None
          else Some(Base(Trojan, host, port).(uuid := password.value, password := password, flow := Str(srv.flow)))
        case Shadowsocks =>
          Some(Base(Shadowsocks, host, port).(cipher := Str(srv.cipher), password := Str(srv.password)))
        case Hysteria => Some(ParseHysteria(settings, ob.stream, host, port))
        case HttpProxy => Some(ParseLogin(HttpProxy, srv, host, port))
        case Socks => Some(ParseLogin(Socks, srv, host, port))
        case _ => None
  }

  function ApplyReality(s: Server, r: Option<RealitySettings>): Server {
    if r.None? then s
    else
      s.(sni := Str(r.value.serverName), publicKey := Str(r.value.publicKey), shortId := Str(r.value.shortId),
         fingerprint := Str(r.value.fingerprint), params := PutSome(s.params, Spx, Str(r.value.spiderX)))
  }

  function ApplyTls(s: Server, t: Option<TlsSettings>): Server {
    if t.None? then s
    else
      var insecure := if t.value.allowInsecure == Some(true) then s.params[AllowInsecure := "1"] else s.params;
      var alpn := if t.value.alpn.Some? && t.value.alpn.value != [] then Some(JoinCommas(t.value.alpn.value)) else None;
      s.(sni := OrElse(s.sni, Str(t.value.serverName)),
         fingerprint := OrElse(s.fingerprint, Str(t.value.fingerprint)),
         params := PutSome(insecure, Alpn, alpn))
  }

  function ApplyBlock(s: Server, block: Block): Server {
    match s.transport
    case Ws => if !block.WsBlock? then s
               else s.(path := Str(block.settings.path), params := PutSome(s.params, HostHeader, block.settings.host))
    case Xhttp => if !block.XhttpBlock? then s
                  else s.(path := Str(block.settings.path), mode := Str(block.settings.mode),
                          params := PutSome(s.params, HostHeader, Str(block.settings.host)))
    case HttpUpgrade => if !block.HttpUpgradeBlock? then s
                        else s.(path := Str(block.settings.path),
                                params := PutSome(s.params, HostHeader, Str(block.settings.host)))
    case Grpc => if !block.GrpcBlock? then s
                 else s.(mode := if block.grpc.multiMode == Some(true) then Some("multi") else s.mode,
                         params := PutSome(PutSome(s.params, ServiceName, Str(block.grpc.serviceName)),
                                           Authority, Str(block.grpc.authority)))
    case _ => s
  }

  function ApplyStream(s: Server, stream: Option<Stream>): Server {
    if stream.None? then s
    else
      var st := stream.value;
      var named := s.(transport := if st.network.Some? then NormalizeNetwork(st.network.value) else s.transport,
                      security := if st.security.Some? then st.security.value else NoSecurity);
      ApplyBlock(ApplyTls(ApplyReality(named, st.reality), st.tls), st.block)
  }

  function Parse(ob: OutboundDoc): Option<Server> {
    var base := ParseSettings(ob);
    if base.None? then None
    else
      var s := ApplyStream(base.value, ob.stream);
      if IsBalancerSentinel(s.host) then None else Some(s)
  }

  // ---- Exactly when nothing is lost ----

  /** What the security layer and the transport ask for. `uuid` is the one the parser will come back with. */
  predicate StreamSurvives(s: Server, uuid: string) {
    && (s.security == Reality ==> Get(s, Spx) != Some(""))
    && (s.security == Tls && NonEmpty(Get(s, Alpn)).Some? ==> SplitList(Get(s, Alpn).value) != [])
    && BlockSurvives(s, uuid)
  }

  predicate BlockSurvives(s: Server, uuid: string) {
    var network := XrayNetwork(s.transport);
    if network == Xhttp then s.path != Some("") && s.mode != Some("")
    else if network == Ws || network == HttpUpgrade then s.path != Some("")
    else if network == Grpc then true
    else if network == Http then Or(s.path, "/") == "/" && NonEmpty(Get(s, HostHeader)).None?
    else if network == Kcp then Or(Get(s, HeaderType), "none") == "none" && NonEmpty(Get(s, Seed)).None?
    else if network == HysteriaTransport then uuid == s.uuid
    else Get(s, HeaderType) != Some("http")
  }

  /** The credential the parser comes back with. */
  function UuidBack(s: Server): string {
    match s.protocol
    case Trojan => Or(s.password, s.uuid)
    case Shadowsocks => ""
    case Hysteria => if XrayNetwork(s.transport) == HysteriaTransport then s.uuid else ""
    case HttpProxy => Trim(s.uuid)
    case Socks => Trim(s.uuid)
    case _ => s.uuid
  }

  predicate CredentialsSurvive(s: Server) {
    match s.protocol
    case Vmess => s.uuid != "" && Get(s, Scy) != Some("")
    case Trojan => Or(s.password, s.uuid) != ""
    case Shadowsocks => true
    case Hysteria => true
    case HttpProxy => LoginSurvives(s)
    case Socks => LoginSurvives(s)
    case _ => s.uuid != ""
  }

  /** The parser trims the user and the password of http and socks proxies. */
  predicate LoginSurvives(s: Server) {
    Trim(s.uuid) == s.uuid && (s.password.Some? ==> Trim(s.password.value) == s.password.value)
  }

  /** The servers whose printed outbound reads back to the same outbound. */
  predicate Survives(s: Server) {
    s.host != "" && !IsBalancerSentinel(s.host) && CredentialsSurvive(s) && StreamSurvives(s, UuidBack(s))
  }

  /** A server as the settings alone describe it: nothing of the stream yet, and no parameter of it. */
  predicate Fresh(b: Server, s: Server) {
    && b.host == s.host && s.host != ""
    && b.transport == Tcp && b.security == NoSecurity
    && b.sni.None? && b.fingerprint.None? && b.publicKey.None? && b.shortId.None? && b.path.None? && b.mode.None?
    && b.params.Keys <= {Scy, Aid}
  }

  /** The same server once the security layer has been read back. */
  function Secured(b: Server, s: Server): Server {
    var named := b.(transport := XrayNetwork(s.transport),
                    security := if s.security == Reality || s.security == Tls then s.security else NoSecurity);
    ApplyTls(ApplyReality(named, if s.security == Reality then Some(BuildReality(s)) else None),
             if s.security == Tls then Some(BuildTls(s)) else None)
  }

  lemma NetworkIsStable(transport: Transport)
    ensures NormalizeNetwork(XrayNetwork(transport)) == XrayNetwork(transport)
    ensures XrayNetwork(XrayNetwork(transport)) == XrayNetwork(transport)
  {
  }

  lemma RealityReadsBack(b: Server, s: Server)
    requires Fresh(b, s) && s.security == Reality
    ensures BuildReality(Secured(b, s)) == BuildReality(s) <==> Get(s, Spx) != Some("")
  {
  }

  lemma TlsReadsBack(b: Server, s: Server)
    requires Fresh(b, s) && s.security == Tls
    ensures BuildTls(Secured(b, s)) == BuildTls(s) <==>
            (NonEmpty(Get(s, Alpn)).Some? ==> SplitList(Get(s, Alpn).value) != [])
  {
    var t := Secured(b, s);
    var alpn := NonEmpty(Get(s, Alpn));
    assert ServerName(t) == ServerName(s) && Fingerprint(t) == Fingerprint(s);
    assert Insecure(t) == Insecure(s);
    if alpn.Some? {
      var list := SplitList(alpn.value);
      SplitListGivesEntries(alpn.value);
      if list != [] {
        SplitUndoesJoin(list);
        JoinedIsNotEmpty(list);
        assert Get(t, Alpn) == Some(JoinCommas(list));
      } else {
        assert Get(t, Alpn) == None;
      }
    } else {
      assert Get(t, Alpn) == None;
    }
  }

  lemma JoinedIsNotEmpty(items: seq<string>)
    requires items != [] && items[0] != ""
    ensures JoinCommas(items) != ""
  {
  }

  /** What reading the security layer leaves for the transport. */
  lemma SecuredKeepsTheRest(b: Server, s: Server)
    requires Fresh(b, s)
    ensures var t := Secured(b, s);
            && t.uuid == b.uuid && t.path.None? && t.mode.None? && t.transport == XrayNetwork(s.transport)
            && t.host == s.host && t.protocol == b.protocol && t.port == b.port && t.password == b.password
            && t.cipher == b.cipher && t.flow == b.flow
            && HostHeader !in t.params && ServiceName !in t.params && Authority !in t.params
            && HeaderType !in t.params && Seed !in t.params
            && Get(t, Scy) == Get(b, Scy) && Get(t, Aid) == Get(b, Aid)
  {
  }

  lemma BlockReadsBack(t: Server, s: Server)
    requires t.path.None? && t.mode.None? && t.transport == XrayNetwork(s.transport)
    requires HostHeader !in t.params && ServiceName !in t.params && Authority !in t.params
    requires HeaderType !in t.params && Seed !in t.params
    ensures BuildBlock(ApplyBlock(t, BuildBlock(s))) == BuildBlock(s) <==> BlockSurvives(s, t.uuid)
  {
    NetworkIsStable(s.transport);
  }

  /** Reading the transport back touches nothing the security layer prints. */
  lemma BlockKeepsSecurity(t: Server, block: Block)
    ensures var r := ApplyBlock(t, block);
            && BuildReality(r) == BuildReality(t) && BuildTls(r) == BuildTls(t)
            && r.security == t.security && r.transport == t.transport && r.uuid == t.uuid && r.host == t.host
            && r.protocol == t.protocol && r.port == t.port && r.password == t.password && r.cipher == t.cipher
            && r.flow == t.flow && Get(r, Scy) == Get(t, Scy) && Get(r, Aid) == Get(t, Aid)
  {
    var r := ApplyBlock(t, block);
    BlockKeepsFields(t, block);
    hide ApplyBlock, SplitList;
  }

  lemma BlockKeepsFields(t: Server, block: Block)
    ensures var r := ApplyBlock(t, block);
            && r == t.(path := r.path, mode := r.mode, params := r.params)
            && forall param :: param !in {HostHeader, ServiceName, Authority} ==> Get(r, param) == Get(t, param)
  {
  }

  lemma StreamReadsBack(b: Server, s: Server)
    requires Fresh(b, s)
    ensures var t := ApplyStream(b, Some(BuildStream(s)));
            && (BuildStream(t) == BuildStream(s) <==> StreamSurvives(s, b.uuid))
            && t.uuid == b.uuid && t.host == s.host && t.protocol == b.protocol && t.port == b.port
            && t.password == b.password && t.cipher == b.cipher && t.flow == b.flow
            && Get(t, Scy) == Get(b, Scy) && Get(t, Aid) == Get(b, Aid)
  {
    NetworkIsStable(s.transport);
    var secured := Secured(b, s);
    SecuredKeepsTheRest(b, s);
    BlockReadsBack(secured, s);
    BlockKeepsSecurity(secured, BuildBlock(s));
    if s.security == Reality {
      RealityReadsBack(b, s);
    } else if s.security == Tls {
      TlsReadsBack(b, s);
    }
    hide BuildBlock, ApplyBlock, BuildReality, BuildTls, BlockSurvives, ApplyTls, ApplyReality;
    var t := ApplyStream(b, Some(BuildStream(s)));
    assert t == ApplyBlock(secured, BuildBlock(s));
    assert t.security == BuildStream(s).security.value;
  }

  /** The settings read back: which servers they describe, and that printing them again gives the same. */
  lemma SettingsReadBack(s: Server)
    requires s.protocol != Wireguard
    ensures var b := ParseSettings(Build(s));
            && (b.Some? <==>
                s.host != "" && (s.protocol in {Vmess, HttpProxy, Socks} || CredentialsSurvive(s))
                && (s.protocol == Vmess ==> s.uuid != ""))
            && (b.Some? ==>
                  && Fresh(b.value, s) && b.value.uuid == UuidBack(s)
                  && b.value.protocol == PrintedProtocol(s.protocol))
  {
    hide BuildBlock, BuildReality, BuildTls;
    HysteriaAuth(s);
    if s.protocol == Hysteria {
    } else {
      hide BuildStream, ParseHysteria;
      if s.protocol in {Vmess, Trojan, Shadowsocks} {
      } else {
      }
    }
  }

  lemma HysteriaAuth(s: Server)
    ensures BuildBlock(s).HysteriaBlock? <==> XrayNetwork(s.transport) == HysteriaTransport
    ensures BuildBlock(s).HysteriaBlock? ==> BuildBlock(s).auth == Some(s.uuid)
  {
  }

  /** A server that agrees with the parsed settings prints the settings of the original. */
  lemma SettingsPrintAgain(s: Server, t: Server)
    requires s.protocol != Wireguard && ParseSettings(Build(s)).Some?
    requires var b := ParseSettings(Build(s)).value;
             && t.uuid == b.uuid && t.host == s.host && t.protocol == b.protocol && t.port == b.port
             && t.password == b.password && t.cipher == b.cipher && t.flow == b.flow
             && Get(t, Scy) == Get(b, Scy) && Get(t, Aid) == Get(b, Aid)
    ensures BuildSettings(t) == BuildSettings(s) <==> CredentialsSurvive(s)
  {
    hide BuildStream;
    if s.protocol == Vmess {
      ParseUndoesPrint(AlterId(s));
      assert Get(ParseSettings(Build(s)).value, Aid) == Some(PrintNat(AlterId(s)));
      assert AlterId(t) == AlterId(s);
    }
  }

  /** Printing a server, reading it back and printing again gives the same outbound exactly for the
      servers of `Survives`. */
  lemma RoundTripExactly(s: Server)
    requires s.protocol != Wireguard
    ensures var back := Parse(Build(s));
            (back.Some? && back.value.protocol != Wireguard && Build(back.value) == Build(s)) <==> Survives(s)
  {
    SettingsReadBack(s);
    var base := ParseSettings(Build(s));
    if base.Some? {
      StreamReadsBack(base.value, s);
      var t := ApplyStream(base.value, Some(BuildStream(s)));
      SettingsPrintAgain(s, t);
      hide BuildStream, BuildSettings, ApplyStream, ParseSettings, StreamSurvives, CredentialsSurvive,
           IsBalancerSentinel, Fresh;
      assert Parse(Build(s)) == if IsBalancerSentinel(s.host) then None else Some(t);
      if s.protocol == Vmess {
        assert PrintedProtocol(t.protocol) == PrintedProtocol(s.protocol);
      }
    }
  }

  /** The servers a URI describes: every field that is given says something, and the transport is one
      the parser reads back. */
  predicate UriStyle(s: Server) {
    && s.host != "" && !IsBalancerSentinel(s.host)
    && s.path != Some("") && s.mode != Some("") && s.password != Some("")
    && (forall param :: param in s.params ==> s.params[param] != "")
    && (Alpn in s.params ==> SplitList(s.params[Alpn]) != [])
    && XrayNetwork(s.transport) in {Xhttp, Ws, HttpUpgrade, Grpc, Tcp, HysteriaTransport}
    && (XrayNetwork(s.transport) == Tcp ==> Get(s, HeaderType) != Some("http"))
    && (XrayNetwork(s.transport) == HysteriaTransport <==> s.protocol == Hysteria)
    && (s.protocol in {Vless, Vmess, Trojan} ==> s.uuid != "")
    && Trimmed(s.uuid) && (s.password.Some? ==> Trimmed(s.password.value))
    && s.protocol in {Vless, Vmess, Trojan, Shadowsocks, HttpProxy, Socks, Hysteria}
  }

  lemma UriStyleSurvives(s: Server)
    requires UriStyle(s)
    ensures Survives(s)
  {
    hide SplitList, IsBalancerSentinel;
    TrimmedIsFixed(s.uuid);
    if s.password.Some? {
      TrimmedIsFixed(s.password.value);
    }
    hide Trim, Trimmed;
    assert BlockSurvives(s, UuidBack(s));
    assert CredentialsSurvive(s);
  }

  /** So the parser loses nothing the printer emits for them. */
  lemma UriServersSurvive(s: Server)
    requires UriStyle(s)
    ensures Parse(Build(s)).Some? && Parse(Build(s)).value.protocol != Wireguard
    ensures Build(Parse(Build(s)).value) == Build(s)
  {
    hide Parse, Build, Survives;
    UriStyleSurvives(s);
    RoundTripExactly(s);
  }

  /** A VLESS server over TLS whose `alpn` is a blank. */
  const BLANK_ALPN := Server(Vless, "id", None, None, "vpn.example", 443, Tcp, Tls, None, None, None, None, None, None,
                             None, map[Alpn := " "])

  lemma BlankListIsEmpty()
    ensures SplitList(" ") == []
  {
    SplitAtFirstComma(" ", "");
    assert Trim(" ") == "";
    assert Kept([" "]) == Kept([]);
  }

  /** It is read back as a server without one, which prints no `alpn` at all. */
  lemma BlankAlpnIsLost()
    ensures var back := Parse(Build(BLANK_ALPN));
            back.Some? && back.value.protocol == Vless && Build(back.value) != Build(BLANK_ALPN)
  {
    BlankListIsEmpty();
    RoundTripExactly(BLANK_ALPN);
    SettingsReadBack(BLANK_ALPN);
    HostIsNoSentinel();
    StreamReadsBack(ParseSettings(Build(BLANK_ALPN)).value, BLANK_ALPN);
    hide SplitList, IsBalancerSentinel, ApplyStream, BuildStream, BuildSettings, ParseSettings;
  }

  lemma HostIsNoSentinel()
    ensures !IsBalancerSentinel("vpn.example")
  {
    TrimmedIsFixed("vpn.example");
    assert |Lowered("vpn.example")| == 11;
  }

  /** A SOCKS server whose user name ends in a blank. */
  const PADDED_LOGIN := Server(Socks, "bob ", None, None, "vpn.example", 1080, Tcp, NoSecurity, None, None, None, None,
                               None, None, None, map[])

  /** The blank does not come back. */
  lemma PaddedLoginIsLost()
    ensures var back := Parse(Build(PADDED_LOGIN));
            back.Some? && back.value.protocol == Socks && back.value.uuid == "bob"
            && Build(back.value) != Build(PADDED_LOGIN)
  {
    PaddingIsTrimmed();
    RoundTripExactly(PADDED_LOGIN);
    SettingsReadBack(PADDED_LOGIN);
    HostIsNoSentinel();
    StreamReadsBack(ParseSettings(Build(PADDED_LOGIN)).value, PADDED_LOGIN);
    hide SplitList, IsBalancerSentinel, ApplyStream, BuildStream, BuildSettings, ParseSettings, Trim;
  }

  lemma PaddingIsTrimmed()
    ensures Trim("bob ") == "bob"
  {
    assert TrimStart("bob ") == "bob ";
    assert "bob "[..3] == "bob";
    assert TrimEnd("bob") == "bob";
  }
}

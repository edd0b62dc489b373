/** Which server comes back from a printed outbound, field by field in terms of the one that was printed. */
module ReadBack {
  import opened Basics
  import opened Text
  import opened Outbound

  predicate Given(value: Option<string>) { value.Some? && value.value != "" }

  /** An option that says something, or the default. */
  function GivenOr(value: Option<string>, default: string): string {
    if Given(value) then value.value else default
  }

  /** An option as it was, if it says something. */
  function Kept(value: Option<string>): Option<string> {
    if Given(value) then value else None
  }

  predicate Secure(s: Server) { s.security == Reality || s.security == Tls }

  // ---- Credentials ----

  /** What the settings alone tell. */
  predicate CredentialsOf(s: Server, b: Server) {
    && b.host == s.host && b.port == s.port
    && b.protocol == (if s.protocol.OtherProtocol? then Vless else s.protocol)
    && match b.protocol
       case Vless => b.uuid == s.uuid && b.flow == Kept(s.flow) && b.password.None? && b.cipher.None?
       case Vmess =>
         && b.uuid == s.uuid && b.flow.None? && b.password.None? && b.cipher.None?
         && Get(b, Scy) == (if Scy in s.params then Kept(Some(s.params[Scy])) else Some("auto"))
         && Get(b, Aid) == Some(PrintNat(if Aid in s.params && ParseU32(s.params[Aid]).Some?
                                         then ParseU32(s.params[Aid]).value else 0))
       case Trojan =>
         var secret := if s.password.Some? then s.password.value else s.uuid;
         b.uuid == secret && b.password == Some(secret) && b.flow == Kept(s.flow) && b.cipher.None?
       case Shadowsocks =>
         b.uuid == "" && b.password == Kept(s.password) && b.cipher == Kept(s.cipher) && b.flow.None?
       case Hysteria =>
         b.uuid == (if s.transport == HysteriaTransport then s.uuid else "") && b.password.None? && b.flow.None?
         && b.cipher.None?
       case _ =>
         b.uuid == Trim(s.uuid)
         && b.password == (if s.password.Some? then Kept(Some(Trim(s.password.value))) else None)
         && b.flow.None? && b.cipher.None?
  }

  lemma CredentialsReadBack(s: Server)
    requires s.protocol != Wireguard && ParseSettings(Build(s)).Some?
    ensures CredentialsOf(s, ParseSettings(Build(s)).value)
  {
    hide BuildBlock, BuildReality, BuildTls, Trim, PrintNat, ParseU32;
    EmptyTrims();
    HysteriaAuth(s);
    if s.protocol == Hysteria {
    } else {
      hide BuildStream, ParseHysteria;
      if s.protocol == Vmess {
        assert Get(ParseSettings(Build(s)).value, Aid) == Some(PrintNat(AlterId(s)));
      } else if s.protocol in {Trojan, Shadowsocks} {
      } else if s.protocol in {HttpProxy, Socks} {
      } else {
      }
    }
  }

  lemma EmptyTrims()
    ensures Trim("") == ""
  {
  }

  // ---- Security ----

  predicate SecurityOf(s: Server, t: Server) {
    && t.security == (if Secure(s) then s.security else NoSecurity)
    && t.sni == (if Secure(s) then Some(GivenOr(s.sni, s.host)) else None)
    && t.fingerprint == (if Secure(s) then Some(GivenOr(s.fingerprint, "chrome")) else None)
    && t.publicKey == (if s.security == Reality then Kept(s.publicKey) else None)
    && t.shortId == (if s.security == Reality then Kept(s.shortId) else None)
    && Get(t, Spx) == (if s.security != Reality then None
                       else if Spx in s.params then Kept(Some(s.params[Spx])) else Some("/"))
    && Get(t, AllowInsecure)
       == (if s.security == Tls && AllowInsecure in s.params && s.params[AllowInsecure] in {"1", "true"}
                                 then Some("1") else None)
    && Get(t, Alpn) == (if s.security == Tls && Alpn in s.params && SplitList(s.params[Alpn]) != []
                        then Some(JoinCommas(SplitList(s.params[Alpn]))) else None)
  }

  lemma EmptySplits()
    ensures SplitList("") == []
  {
    SplitAtFirstComma("", "");
    assert SplitCommas("") == [""];
  }

  lemma SecurityReadsBack(b: Server, s: Server)
    requires Fresh(b, s)
    ensures SecurityOf(s, Secured(b, s))
  {
    hide SplitList, JoinCommas;
    EmptySplits();
  }

  // ---- Transport ----

  predicate TransportOf(s: Server, r: Server) {
    && (r.transport == Xhttp <==> s.transport in {Xhttp, SplitHttp})
    && (r.transport == Ws <==> s.transport in {Ws, WebSocket})
    && (r.transport == Grpc <==> s.transport in {Grpc, Gun})
    && (r.transport == HttpUpgrade <==> s.transport == HttpUpgrade)
    && (r.transport == Http <==> s.transport in {Http, H2, H3})
    && (r.transport == Kcp <==> s.transport in {Kcp, Mkcp})
    && (r.transport == HysteriaTransport <==> s.transport == HysteriaTransport)
    && (r.transport == Tcp <==> s.transport in {Blank, Raw, Tcp} || s.transport.OtherTransport?)
    && r.path == (if r.transport in {Xhttp, Ws, HttpUpgrade}
                  then (if s.path.Some? then Kept(s.path) else Some("/")) else None)
    && r.mode == (if r.transport == Xhttp then (if s.mode.Some? then Kept(s.mode) else Some("auto"))
                  else if r.transport == Grpc && s.mode in {Some("multi"), Some("gun")} then Some("multi")
                  else None)
    && Get(r, HostHeader) == (if r.transport in {Xhttp, Ws, HttpUpgrade} then Kept(Get(s, HostHeader)) else None)
    && Get(r, ServiceName) == (if r.transport == Grpc then Kept(Get(s, ServiceName)) else None)
    && Get(r, Authority) == (if r.transport == Grpc then Kept(Get(s, Authority)) else None)
  }

  lemma TransportReadsBack(t: Server, s: Server)
    requires t.path.None? && t.mode.None? && t.transport == XrayNetwork(s.transport)
    requires HostHeader !in t.params && ServiceName !in t.params && Authority !in t.params
    ensures TransportOf(s, ApplyBlock(t, BuildBlock(s)))
  {
    hide SplitList;
  }

  // ---- The whole server ----

  /** Whatever is read back is the printed server: its endpoint, credential and flow; its security with the SNI it gave
      or its host, and insecure exactly when it asked for that over TLS; its transport with path, mode and host. */
  lemma ReadsBackAs(s: Server)
    requires s.protocol != Wireguard && Parse(Build(s)).Some?
    ensures var r := Parse(Build(s)).value; CredentialsOf(s, r) && SecurityOf(s, r) && TransportOf(s, r)
  {
    SettingsReadBack(s);
    CredentialsReadBack(s);
    var b := ParseSettings(Build(s)).value;
    var t := Secured(b, s);
    SecurityReadsBack(b, s);
    SecuredKeepsTheRest(b, s);
    TransportReadsBack(t, s);
    BlockKeepsFields(t, BuildBlock(s));
    NetworkIsStable(s.transport);
    var r := Parse(Build(s)).value;
    assert r == ApplyBlock(t, BuildBlock(s)) by {
      StreamIsSecuredBlock(b, s);
    }
    hide Parse, ParseSettings, Build, Secured, ApplyBlock, BuildBlock, Fresh, SplitList, Trim, TransportOf;
  }

  lemma StreamIsSecuredBlock(b: Server, s: Server)
    ensures ApplyStream(b, Some(BuildStream(s))) == ApplyBlock(Secured(b, s), BuildBlock(s))
  {
    NetworkIsStable(s.transport);
    hide ApplyBlock, BuildBlock, ApplyTls, ApplyReality, BuildTls, BuildReality;
  }

  /** And every server a URI describes is read back. */
  lemma UriServersReadBack(s: Server)
    requires UriStyle(s)
    ensures var back := Parse(Build(s));
            && back.Some? && CredentialsOf(s, back.value) && SecurityOf(s, back.value) && TransportOf(s, back.value)
            && back.value.uuid == (if s.protocol == Trojan && s.password.Some? then s.password.value
                                   else if s.protocol == Shadowsocks then "" else s.uuid)
  {
    UriServersSurvive(s);
    ReadsBackAs(s);
    TrimmedIsFixed(s.uuid);
    hide Parse, Build, Trim, SecurityOf, TransportOf, SplitList;
  }

  // ---- What is printed and not read back ----

  /** Every printed outbound names the endpoint of the server, where its protocol has it. */
  lemma EndpointIsPrinted(s: Server)
    requires s.protocol != Wireguard
    ensures var settings := BuildSettings(s);
            var endpoint := if settings.vnext.Listed? && |settings.vnext.items| == 1 then settings.vnext.items[0]
                            else if settings.servers.Listed? && |settings.servers.items| == 1
                            then settings.servers.items[0]
                            else settings;
            && endpoint.address == Some(s.host) && endpoint.port == Some(s.port)
            && (settings.vnext.Listed? <==> s.protocol in {Vless, Vmess} || s.protocol.OtherProtocol?)
            && (settings.servers.Listed? <==> s.protocol in {Trojan, Shadowsocks})
  {
  }

  /** The constants of the protocols: no VLESS encryption, UDP over TCP for Shadowsocks, version 2 of Hysteria. */
  lemma ConstantsArePrinted(s: Server)
    requires s.protocol != Wireguard
    ensures var settings := BuildSettings(s);
            && (s.protocol == Vless || s.protocol.OtherProtocol? ==>
                  var users := settings.vnext.items[0].users;
                  users.Listed? && |users.items| == 1 && users.items[0].encryption == Some("none"))
            && (s.protocol == Shadowsocks ==> settings.servers.items[0].uot == Some(true))
            && (s.protocol == Hysteria ==> settings.version == Some(2))
  {
  }

  /** The blocks the parser does not read: path and hosts of http, header and seed of kcp, the fake HTTP request of tcp,
      version and credential of Hysteria. */
  lemma OtherBlocksArePrinted(s: Server)
    ensures var block := BuildBlock(s);
            && (s.transport in {Http, H2, H3} ==>
                  block == HttpBlock(HttpSettings(
                    Some(if s.path.Some? then s.path.value else "/"),
                    if Given(Get(s, HostHeader)) then Some(SplitList(s.params[HostHeader])) else None)))
            && (s.transport in {Kcp, Mkcp} ==>
                  block == KcpBlock(KcpSettings(Some(if HeaderType in s.params then s.params[HeaderType] else "none"),
                                                Kept(Get(s, Seed)))))
            && (s.transport == HysteriaTransport ==> block == HysteriaBlock(2, Some(s.uuid)))
            && (s.transport in {Blank, Raw, Tcp} || s.transport.OtherTransport? ==>
                  block == if HeaderType in s.params && s.params[HeaderType] == "http"
                           then TcpBlock(TcpRequest(
                             if Given(Get(s, HostHeader)) then Some(SplitList(s.params[HostHeader])) else None,
                             if s.path.Some? then Some(SplitList(s.path.value)) else None))
                           else NoBlock)
  {
    hide SplitList;
  }

  // ---- Any outbound ----

  /** The object that names the endpoint: the settings, if they have an address, or the first of their list. */
  predicate EndpointOf(ob: OutboundDoc, e: Object) {
    && ob.settings.Some?
    && var settings := ob.settings.value;
       if ob.protocol == Hysteria || settings.address.Some? then e == settings
       else
         var list := if ob.protocol in {Vless, Vmess} then settings.vnext else settings.servers;
         list.Listed? && |list.items| > 0 && e == list.items[0]
  }

  /** The object that names the user: the first listed, or the endpoint itself. */
  function UserOf(e: Object): Object {
    if e.users.Listed? && |e.users.items| > 0 then e.users.items[0] else e
  }

  /** An outbound of any origin is a server exactly when its endpoint has an address that is no stand-in and a port, and
      its protocol has the credential it cannot do without. */
  predicate Describes(ob: OutboundDoc, e: Object) {
    && EndpointOf(ob, e) && Given(e.address) && e.port.Some? && !IsBalancerSentinel(e.address.value)
    && (ob.protocol in {Vless, Vmess} ==> Given(UserOf(e).id))
    && (ob.protocol == Trojan ==> Given(e.password))
    && ob.protocol in {Vless, Vmess, Trojan, Shadowsocks, Hysteria, HttpProxy, Socks}
  }

  predicate LoginOf(ob: OutboundDoc, e: Object, r: Server) {
    && r.protocol == ob.protocol && Some(r.host) == e.address && Some(r.port) == e.port
    && (ob.protocol in {Vless, Vmess} ==> UserOf(e).id == Some(r.uuid) && r.flow == Kept(UserOf(e).flow))
    && (ob.protocol == Trojan ==>
          e.password == Some(r.uuid) && r.password == e.password && r.flow == Kept(e.flow))
    && (ob.protocol == Shadowsocks ==>
          r.cipher == Kept(e.cipher) && r.password == Kept(e.password))
    && (ob.protocol == Hysteria ==>
          var block := if ob.stream.Some? then ob.stream.value.block else NoBlock;
          r.uuid == if block.HysteriaBlock? && Given(block.auth) then block.auth.value else GivenOr(e.auth, ""))
    && (ob.protocol in {HttpProxy, Socks} ==>
          var user, name := UserOf(e), Word(UserOf(e).user);
          && r.uuid == (if name.Some? then name.value else Or(Word(user.username), ""))
          && r.password == (if Word(user.pass).Some? then Word(user.pass) else Word(user.password)))
  }

  lemma ParsedMeans(ob: OutboundDoc)
    ensures Parse(ob).Some? <==> exists e :: Describes(ob, e)
    ensures Parse(ob).Some? ==> forall e :: EndpointOf(ob, e) ==> LoginOf(ob, e, Parse(ob).value)
  {
    hide ApplyStream, IsBalancerSentinel, ParseSettings, LoginOf, Describes, EndpointOf;
    var read := ParseSettings(ob);
    if read.Some? {
      StreamKeepsTheLogin(read.value, ob.stream);
    }
    forall e | EndpointOf(ob, e)
      ensures Parse(ob).Some? <==> Describes(ob, e)
      ensures Parse(ob).Some? ==> LoginOf(ob, e, Parse(ob).value)
    {
      SettingsMean(ob, e);
      if Parse(ob).Some? {
        LoginIsKept(ob, e, read.value, Parse(ob).value);
      }
    }
    SomeEndpoint(ob);
  }

  /** What can be read has an endpoint, and what is described too. */
  lemma SomeEndpoint(ob: OutboundDoc)
    ensures ParseSettings(ob).Some? ==> exists e :: EndpointOf(ob, e)
    ensures forall e :: Describes(ob, e) ==> EndpointOf(ob, e)
  {
    hide ParseUser, ParseLogin, ParseHysteria, IsBalancerSentinel;
    if ParseSettings(ob).Some? {
      var settings := ob.settings.value;
      var list := if ob.protocol == Vless || ob.protocol == Vmess then settings.vnext else settings.servers;
      assert EndpointOf(ob, if ob.protocol == Hysteria then settings else DirectOrFirst(settings, list).value);
    }
  }

  lemma SettingsMean(ob: OutboundDoc, e: Object)
    requires EndpointOf(ob, e)
    ensures var read := ParseSettings(ob);
            && (read.Some? && !IsBalancerSentinel(read.value.host) <==> Describes(ob, e))
            && (read.Some? ==> LoginOf(ob, e, read.value))
  {
    hide IsBalancerSentinel, Word;
  }

  lemma LoginIsKept(ob: OutboundDoc, e: Object, b: Server, r: Server)
    requires LoginOf(ob, e, b)
    requires r.protocol == b.protocol && r.host == b.host && r.port == b.port && r.uuid == b.uuid
    requires r.password == b.password && r.cipher == b.cipher && r.flow == b.flow
    ensures LoginOf(ob, e, r)
  {
    hide Word;
  }

  /** The stream settings decide transport, security and what belongs to them, and nothing of the login. */
  lemma StreamKeepsTheLogin(b: Server, stream: Option<Stream>)
    ensures var r := ApplyStream(b, stream);
            && r.protocol == b.protocol && r.host == b.host && r.port == b.port && r.uuid == b.uuid
            && r.password == b.password && r.cipher == b.cipher && r.flow == b.flow
    ensures stream.Some? ==>
              var r := ApplyStream(b, stream);
              && r.security == (if stream.value.security.Some? then stream.value.security.value else NoSecurity)
              && (stream.value.network.Some? ==> r.transport == NormalizeNetwork(stream.value.network.value))
  {
  }
}

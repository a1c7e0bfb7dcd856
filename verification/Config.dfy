/** The parsed configuration and its validation (src/config.rs). Rust strings are UTF-8 byte
    sequences, and are byte sequences here. */
module Config {
  import opened Wrappers
  import opened Bincode

  type Text = Bytes

  datatype ServiceType = Tcp | Udp

  datatype ServerService = ServerService(
    serviceType: ServiceType,
    name: Text,
    bindAddr: Text,
    token: Option<Text>,
    nodelay: Option<bool>)

  datatype ClientService = ClientService(
    serviceType: ServiceType,
    name: Text,
    localAddr: Text,
    token: Option<Text>,
    nodelay: Option<bool>,
    retryInterval: Option<nat>)

  datatype Scheme = Socket5 | Http | OtherScheme(name: Text)

  datatype Url = Url(scheme: Scheme, rest: Text)

  datatype TcpConfig = TcpConfig(nodelay: bool, keepaliveSecs: nat, keepaliveInterval: nat, proxy: Option<Url>)

  datatype TlsConfig = TlsConfig(
    hostname: Option<Text>,
    trustedRoot: Option<Text>,
    pkcs12: Option<Text>,
    pkcs12Password: Option<Text>)

  datatype NoiseConfig = NoiseConfig(pattern: Text, localPrivateKey: Option<Text>, remotePublicKey: Option<Text>)

  datatype TransportType = TcpTransport | TlsTransport | NoiseTransport

  datatype Transport = Transport(
    transportType: TransportType,
    tcp: TcpConfig,
    tls: Option<TlsConfig>,
    noise: Option<NoiseConfig>)

  datatype ServerConfig = ServerConfig(
    bindAddr: Text,
    defaultToken: Option<Text>,
    services: map<Text, ServerService>,
    transport: Transport,
    heartbeatInterval: nat)

  datatype ClientConfig = ClientConfig(
    remoteAddr: Text,
    defaultToken: Option<Text>,
    services: map<Text, ClientService>,
    transport: Transport,
    heartbeatTimeout: nat,
    retryInterval: nat)

  datatype Config = Config(server: Option<ServerConfig>, client: Option<ClientConfig>)

  datatype ConfigError = TokenNotSet | UnknownProxyScheme | MissingTls | MissingPkcs12 | NothingDefined

  // ---- validation as a function ----

  function ValidateTransport(t: Transport, isServer: bool): Option<ConfigError> {
    if t.tcp.proxy.Some? && t.tcp.proxy.value.scheme.OtherScheme? then Some(UnknownProxyScheme)
    else
      match t.transportType
      case TcpTransport => None
      case NoiseTransport => None
      case TlsTransport =>
        if t.tls.None? then Some(MissingTls)
        else if isServer && (t.tls.value.pkcs12.None? || t.tls.value.pkcs12Password.None?) then Some(MissingPkcs12)
        else None
  }

  function Or(token: Option<Text>, default: Option<Text>): Option<Text> {
    if token.Some? then token else default
  }

  function CompleteServer(name: Text, s: ServerService, default: Option<Text>): ServerService {
    s.(name := name, token := Or(s.token, default))
  }

  function CompleteClient(name: Text, s: ClientService, default: Option<Text>, retryInterval: nat): ClientService {
    s.(name := name, token := Or(s.token, default),
       retryInterval := if s.retryInterval.Some? then s.retryInterval else Some(retryInterval))
  }

  function CompletedServer(c: ServerConfig): map<Text, ServerService> {
    map name | name in c.services :: CompleteServer(name, c.services[name], c.defaultToken)
  }

  function CompletedClient(c: ClientConfig): map<Text, ClientService> {
    map name | name in c.services :: CompleteClient(name, c.services[name], c.defaultToken, c.retryInterval)
  }

  function ValidateServer(c: ServerConfig): Result<ServerConfig, ConfigError> {
    if exists name :: name in c.services && Or(c.services[name].token, c.defaultToken).None? then Err(TokenNotSet)
    else
      match ValidateTransport(c.transport, true)
      case Some(e) => Err(e)
      case None =>
        Ok(c.(services := CompletedServer(c)))
  }

  function ValidateClient(c: ClientConfig): Result<ClientConfig, ConfigError> {
    if exists name :: name in c.services && Or(c.services[name].token, c.defaultToken).None? then Err(TokenNotSet)
    else
      match ValidateTransport(c.transport, false)
      case Some(e) => Err(e)
      case None =>
        Ok(c.(services := CompletedClient(c)))
  }

  /** `from_str` behind the parser: the server block first, then the client block. */
  function Validate(c: Config): Result<Config, ConfigError> {
    var badServer := c.server.Some? && ValidateServer(c.server.value).Err?;
    var badClient := c.client.Some? && ValidateClient(c.client.value).Err?;
    if badServer then Err(ValidateServer(c.server.value).error)
    else if badClient then Err(ValidateClient(c.client.value).error)
    else if c.server.None? && c.client.None? then Err(NothingDefined)
    else
      Ok(Config(
        if c.server.None? then None else Some(ValidateServer(c.server.value).value),
        if c.client.None? then None else Some(ValidateClient(c.client.value).value)))
  }

  // ---- what validation promises ----

  predicate RunnableServerService(key: Text, s: ServerService) {
    s.name == key && s.token.Some?
  }

  predicate RunnableClientService(key: Text, s: ClientService) {
    s.name == key && s.token.Some? && s.retryInterval.Some?
  }

  ghost predicate RunnableServer(c: ServerConfig) {
    forall n :: n in c.services ==> RunnableServerService(n, c.services[n])
  }

  ghost predicate RunnableClient(c: ClientConfig) {
    forall n :: n in c.services ==> RunnableClientService(n, c.services[n])
  }

  /** Every service is named by its key and has everything the running code unwraps. */
  ghost predicate Runnable(c: Config) {
    && (c.server.Some? ==> RunnableServer(c.server.value))
    && (c.client.Some? ==> RunnableClient(c.client.value))
    && (c.server.Some? || c.client.Some?)
  }

  /** Which transports are refused, and why. */
  lemma TransportRules(t: Transport, isServer: bool)
    ensures var r := ValidateTransport(t, isServer);
            var scheme := if t.tcp.proxy.Some? then Some(t.tcp.proxy.value.scheme) else None;
            var proxyKnown := scheme == None || scheme == Some(Socket5) || scheme == Some(Http);
            var complete := t.tls.Some? && t.tls.value.pkcs12.Some? && t.tls.value.pkcs12Password.Some?;
            && (r == Some(UnknownProxyScheme) <==> !proxyKnown)
            && (r == Some(MissingTls) <==> proxyKnown && t.transportType == TlsTransport && t.tls == None)
            && (r == Some(MissingPkcs12) <==>
                  proxyKnown && t.transportType == TlsTransport && t.tls != None && isServer && !complete)
            && (r == None <==>
                  proxyKnown && (t.transportType == TlsTransport ==> t.tls != None && (isServer ==> complete)))
  {
  }

  /** What validation makes of a server block, field by field. */
  lemma ServerFields(c: ServerConfig)
    ensures var lacks := exists n :: n in c.services && c.services[n].token == None && c.defaultToken == None;
            && (ValidateServer(c) == Err(TokenNotSet) <==> lacks)
            && (!lacks && ValidateTransport(c.transport, true).Some? ==>
                  ValidateServer(c) == Err(ValidateTransport(c.transport, true).value))
            && (!lacks && ValidateTransport(c.transport, true).None? ==> ValidateServer(c).Ok?)
    ensures ValidateServer(c).Ok? ==>
              var r := ValidateServer(c).value;
              && r.bindAddr == c.bindAddr && r.defaultToken == c.defaultToken
              && r.transport == c.transport && r.heartbeatInterval == c.heartbeatInterval
              && r.services.Keys == c.services.Keys
              && forall n :: n in c.services ==>
                   var (s, s') := (c.services[n], r.services[n]);
                   && s'.name == n && s'.token == (if s.token == None then c.defaultToken else s.token)
                   && s'.serviceType == s.serviceType && s'.bindAddr == s.bindAddr && s'.nodelay == s.nodelay
  {
  }

  /** And of a client block. */
  lemma ClientFields(c: ClientConfig)
    ensures var lacks := exists n :: n in c.services && c.services[n].token == None && c.defaultToken == None;
            && (ValidateClient(c) == Err(TokenNotSet) <==> lacks)
            && (!lacks && ValidateTransport(c.transport, false).Some? ==>
                  ValidateClient(c) == Err(ValidateTransport(c.transport, false).value))
            && (!lacks && ValidateTransport(c.transport, false).None? ==> ValidateClient(c).Ok?)
    ensures ValidateClient(c).Ok? ==>
              var r := ValidateClient(c).value;
              && r.remoteAddr == c.remoteAddr && r.defaultToken == c.defaultToken && r.transport == c.transport
              && r.heartbeatTimeout == c.heartbeatTimeout && r.retryInterval == c.retryInterval
              && r.services.Keys == c.services.Keys
              && forall n :: n in c.services ==>
                   var (s, s') := (c.services[n], r.services[n]);
                   && s'.name == n && s'.token == (if s.token == None then c.defaultToken else s.token)
                   && s'.retryInterval == (if s.retryInterval == None then Some(c.retryInterval) else s.retryInterval)
                   && s'.serviceType == s.serviceType && s'.localAddr == s.localAddr && s'.nodelay == s.nodelay
  {
  }

  /** A file is accepted exactly when it has a block and each of its blocks is accepted; both blocks
      are kept, and the server's complaint comes first. */
  lemma BlocksAreKept(c: Config)
    ensures var (noServer, noClient) := (c.server == None, c.client == None);
            var serverOk := noServer || ValidateServer(c.server.value).Ok?;
            var clientOk := noClient || ValidateClient(c.client.value).Ok?;
            && (Validate(c).Ok? <==> serverOk && clientOk && !(noServer && noClient))
            && (!serverOk ==> Validate(c) == Err(ValidateServer(c.server.value).error))
            && (serverOk && !clientOk ==> Validate(c) == Err(ValidateClient(c.client.value).error))
            && (noServer && noClient ==> Validate(c) == Err(NothingDefined))
            && (Validate(c).Ok? ==>
                  var r := Validate(c).value;
                  && (if noServer then r.server == None else r.server == Some(ValidateServer(c.server.value).value))
                  && (if noClient then r.client == None else r.client == Some(ValidateClient(c.client.value).value)))
  {
  }

  lemma ServerValidation(c: ServerConfig)
    ensures var r := ValidateServer(c);
            && (r.Ok? ==> RunnableServer(r.value) && ValidateServer(r.value) == r)
            && (RunnableServer(c) && ValidateTransport(c.transport, true).None? ==> r == Ok(c))
  {
    var r := ValidateServer(c);
    if r.Ok? {
      assert forall n :: n in r.value.services ==> n in c.services;
      assert CompletedServer(r.value) == r.value.services;
    }
    if RunnableServer(c) {
      assert CompletedServer(c) == c.services;
    }
  }

  lemma ClientValidation(c: ClientConfig)
    ensures var r := ValidateClient(c);
            && (r.Ok? ==> RunnableClient(r.value) && ValidateClient(r.value) == r)
            && (RunnableClient(c) && ValidateTransport(c.transport, false).None? ==> r == Ok(c))
  {
    var r := ValidateClient(c);
    if r.Ok? {
      assert forall n :: n in r.value.services ==> n in c.services;
      assert CompletedClient(r.value) == r.value.services;
    }
    if RunnableClient(c) {
      assert CompletedClient(c) == c.services;
    }
  }

  /** An accepted configuration is runnable, and validating it again changes nothing: the
      accepted configurations are exactly the fixed points of validation. */
  lemma ValidationIsIdempotent(c: Config)
    ensures Validate(c).Ok? ==> Runnable(Validate(c).value) && Validate(Validate(c).value) == Validate(c)
  {
    if c.server.Some? {
      ServerValidation(c.server.value);
    }
    if c.client.Some? {
      ClientValidation(c.client.value);
    }
  }

  // ---- validation as the loops over the services ----

  method ValidateServerConfig(server: ServerConfig) returns (r: Result<ServerConfig, ConfigError>)
    ensures r == ValidateServer(server)
  {
    var services := server.services;
    var pending := services.Keys;
    while pending != {}
      invariant pending <= server.services.Keys == services.Keys
      invariant forall n :: n in services ==>
        services[n] == if n in pending then server.services[n]
                       else CompleteServer(n, server.services[n], server.defaultToken)
      invariant forall n :: n in services && n !in pending ==> services[n].token.Some?
      decreases pending
    {
      var name :| name in pending;
      var s := services[name].(name := name);
      if s.token.None? {
        s := s.(token := server.defaultToken);
        if s.token.None? {
          return Err(TokenNotSet);
        }
      }
      services := services[name := s];
      pending := pending - {name};
    }
    assert services == CompletedServer(server);
    var complaint := ValidateTransport(server.transport, true);
    if complaint.Some? {
      return Err(complaint.value);
    }
    r := Ok(server.(services := services));
  }

  method ValidateClientConfig(client: ClientConfig) returns (r: Result<ClientConfig, ConfigError>)
    ensures r == ValidateClient(client)
  {
    var services := client.services;
    var pending := services.Keys;
    while pending != {}
      invariant pending <= client.services.Keys == services.Keys
      invariant forall n :: n in services ==>
        services[n] == if n in pending then client.services[n]
                       else CompleteClient(n, client.services[n], client.defaultToken, client.retryInterval)
      invariant forall n :: n in services && n !in pending ==> services[n].token.Some?
      decreases pending
    {
      var name :| name in pending;
      var s := services[name].(name := name);
      if s.token.None? {
        s := s.(token := client.defaultToken);
        if s.token.None? {
          return Err(TokenNotSet);
        }
      }
      if s.retryInterval.None? {
        s := s.(retryInterval := Some(client.retryInterval));
      }
      services := services[name := s];
      pending := pending - {name};
    }
    assert services == CompletedClient(client);
    var complaint := ValidateTransport(client.transport, false);
    if complaint.Some? {
      return Err(complaint.value);
    }
    r := Ok(client.(services := services));
  }
}

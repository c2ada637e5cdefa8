/** The transport choice at the head of `NewMqttClient` (mqtt.go): the broker
    URL it adds to the client options and the TLS configuration it installs,
    decided by the `MqttClient` profile of model.go. */
module Broker {
  import opened Wrappers
  import opened Decimal

  /** `MqttClient` (model.go); Go's `int` fields are unbounded here. */
  datatype MqttClient = MqttClient(
    broker: string,
    port: int,
    user: string,
    pass: string,
    clientID: string,
    qos: int,
    crtPem: string,
    keyPem: string,
    ca: string,
    topic: string,
    stationId: string,
    stationName: string)

  /** The conventional unencrypted MQTT port, the only port that selects tcp. */
  const PlainPort: int := 1883

  datatype Scheme = Tcp | Ssl | Mqtt {
    function Name(): string
    {
      match this
      case Tcp => "tcp"
      case Ssl => "ssl"
      case Mqtt => "mqtt"
    }
  }

  /** The TLS configurations the two builders produce, recorded by the
      certificate material they are built from: `NewSingleTlsConfig` trusts
      the roots in `ca`; `NewDoubleTlsConfig` also presents a client key pair. */
  datatype TlsConfig =
    | SingleAuth(rootCa: string)
    | MutualAuth(rootCa: string, clientCrt: string, clientKey: string)

  /** `fmt.Sprintf("<scheme>://%s:%d", broker, port)`. */
  function BrokerUrl(scheme: Scheme, host: string, port: int): string
  {
    scheme.Name() + "://" + host + ":" + FormatInt(port)
  }

  /** What a broker URL names: the scheme, the host and the port. */
  datatype Endpoint = Endpoint(scheme: Scheme, host: string, port: int)

  /** The scheme a URL opens with, if it is one of the three. */
  function SchemeOf(url: string): Option<Scheme>
  {
    if |url| >= 6 && url[..6] == "tcp://" then Some(Tcp)
    else if |url| >= 6 && url[..6] == "ssl://" then Some(Ssl)
    else if |url| >= 7 && url[..7] == "mqtt://" then Some(Mqtt)
    else None
  }

  /** The position of the last ':' in `s`. */
  function LastColon(s: string): (r: Option<nat>)
    ensures r.None? <==> ':' !in s
    ensures r.Some? ==> r.value < |s| && s[r.value] == ':'
    ensures r.Some? ==> forall j :: r.value < j < |s| ==> s[j] != ':'
  {
    if s == [] then None
    else if s[|s| - 1] == ':' then Some(|s| - 1)
    else
      var r := LastColon(s[..|s| - 1]);
      assert s == s[..|s| - 1] + [s[|s| - 1]];
      r
  }

  /** Splits a broker URL at its scheme separator and at the last ':', and
      reads the port back as `%d` wrote it. */
  function ParseBrokerUrl(url: string): Option<Endpoint>
  {
    match SchemeOf(url)
    case None => None
    case Some(scheme) =>
      var rest := url[|scheme.Name()| + 3..];
      match LastColon(rest)
      case None => None
      case Some(i) =>
        match ParseInt(rest[i + 1..])
        case None => None
        case Some(port) => Some(Endpoint(scheme, rest[..i], port))
  }

  lemma SchemeOfBrokerUrl(scheme: Scheme, tail: string)
    ensures SchemeOf(scheme.Name() + "://" + tail) == Some(scheme)
  {
    var url := scheme.Name() + "://" + tail;
    match scheme
    case Tcp =>
      assert url[..6] == "tcp://";
    case Ssl =>
      assert url[..6] == "ssl://";
      assert url[0] != 't';
    case Mqtt =>
      assert url[..7] == "mqtt://";
      assert url[0] != 't' && url[0] != 's';
  }

  /** A ':' followed by colon-free text is the last one. */
  lemma {:induction false} LastColonBeforeSuffix(prefix: string, suffix: string)
    requires ':' !in suffix
    ensures LastColon(prefix + ":" + suffix) == Some(|prefix|)
    decreases |suffix|
  {
    var s := prefix + ":" + suffix;
    if suffix == [] {
      assert s[|s| - 1] == ':';
    } else {
      var init := suffix[..|suffix| - 1];
      assert s[..|s| - 1] == prefix + ":" + init;
      assert s[|s| - 1] == suffix[|suffix| - 1];
      assert ':' !in init by {
        forall i | 0 <= i < |init| ensures init[i] != ':' {
          assert init[i] == suffix[i];
        }
      }
      LastColonBeforeSuffix(prefix, init);
    }
  }

  /** The broker URL formatting is one-to-one, whatever the host contains:
      the scheme, the host and the port are all recovered from it. */
  lemma ParseBrokerUrlRoundTrip(scheme: Scheme, host: string, port: int)
    ensures ParseBrokerUrl(BrokerUrl(scheme, host, port)) == Some(Endpoint(scheme, host, port))
  {
    var text := FormatInt(port);
    var rest := host + ":" + text;
    var url := BrokerUrl(scheme, host, port);
    assert url == scheme.Name() + "://" + rest;
    SchemeOfBrokerUrl(scheme, rest);
    assert url[|scheme.Name()| + 3..] == rest;
    LastColonBeforeSuffix(host, text);
    assert rest[|host| + 1..] == text;
    assert rest[..|host|] == host;
    ParseFormatInt(port);
    SplitAtScheme(url, scheme, rest);
  }

  lemma SplitAtScheme(url: string, scheme: Scheme, rest: string)
    requires SchemeOf(url) == Some(scheme)
    requires url[|scheme.Name()| + 3..] == rest
    requires LastColon(rest).Some?
    requires ParseInt(rest[LastColon(rest).value + 1..]).Some?
    ensures ParseBrokerUrl(url)
         == Some(Endpoint(scheme, rest[..LastColon(rest).value], ParseInt(rest[LastColon(rest).value + 1..]).value))
  {
  }

  /** The part of `NewMqttClient` that chooses the transport. */
  datatype Transport = Transport(scheme: Scheme, url: string, tls: Option<TlsConfig>)

  /** Port 1883 gives tcp and no TLS; any other port gives ssl with a
      single-auth configuration built from `ca` when `ca` is non-empty,
      and mqtt without TLS otherwise. */
  function SelectTransport(mc: MqttClient): (t: Transport)
    ensures t.url == BrokerUrl(t.scheme, mc.broker, mc.port)
    ensures t.scheme == Tcp <==> mc.port == PlainPort
    ensures t.scheme == Ssl <==> mc.port != PlainPort && mc.ca != ""
    ensures t.scheme == Mqtt <==> mc.port != PlainPort && mc.ca == ""
    ensures t.tls.Some? <==> t.scheme == Ssl
    ensures t.tls.Some? ==> t.tls.value == SingleAuth(mc.ca)
  {
    if mc.port == PlainPort then
      Transport(Tcp, BrokerUrl(Tcp, mc.broker, mc.port), None)
    else if mc.ca != "" then
      Transport(Ssl, BrokerUrl(Ssl, mc.broker, mc.port), Some(SingleAuth(mc.ca)))
    else
      Transport(Mqtt, BrokerUrl(Mqtt, mc.broker, mc.port), None)
  }

  /** Mutual TLS is never selected, and TLS is only configured with a
      non-empty root CA on a port other than 1883. */
  lemma NeverMutualTls(mc: MqttClient)
    ensures SelectTransport(mc).tls.Some? ==> SelectTransport(mc).tls.value.SingleAuth?
    ensures SelectTransport(mc).tls.Some? ==> mc.ca != "" && mc.port != PlainPort
  {
  }

  /** Only `broker`, `port` and `ca` take part in the choice: the client
      certificate and key, the credentials and the rest are ignored. */
  lemma SelectionDependsOnlyOnEndpoint(mc: MqttClient, mc': MqttClient)
    requires mc.broker == mc'.broker && mc.port == mc'.port && mc.ca == mc'.ca
    ensures SelectTransport(mc) == SelectTransport(mc')
  {
  }

  /** The URL added to the options names the profile's host and port under
      the chosen scheme. */
  lemma SelectedUrlNamesEndpoint(mc: MqttClient)
    ensures ParseBrokerUrl(SelectTransport(mc).url)
         == Some(Endpoint(SelectTransport(mc).scheme, mc.broker, mc.port))
  {
    var t := SelectTransport(mc);
    ParseBrokerUrlRoundTrip(t.scheme, mc.broker, mc.port);
  }

  /** The two fields of the options builder that the transport choice sets:
      the broker URLs added so far and the TLS configuration. */
  class ClientOptions {
    var servers: seq<string>
    var tlsConfig: Option<TlsConfig>

    /** `mqtt.NewClientOptions()`: no broker, no TLS configuration. */
    constructor ()
      ensures servers == [] && tlsConfig == None
    {
      servers := [];
      tlsConfig := None;
    }

    /** `AddBroker`: appends a broker URL. */
    method AddBroker(server: string)
      modifies this
      ensures servers == old(servers) + [server]
      ensures tlsConfig == old(tlsConfig)
    {
      servers := servers + [server];
    }

    /** `SetTLSConfig`: installs a TLS configuration. */
    method SetTLSConfig(config: TlsConfig)
      modifies this
      ensures tlsConfig == Some(config)
      ensures servers == old(servers)
    {
      tlsConfig := Some(config);
    }
  }

  /** The branch of `NewMqttClient` as the source writes it, as calls on the
      options builder: exactly one broker URL is added, the one
      SelectTransport gives, and a TLS configuration is installed only when
      SelectTransport chooses one. */
  method ConfigureTransport(mc: MqttClient, opts: ClientOptions)
    modifies opts
    ensures opts.servers == old(opts.servers) + [SelectTransport(mc).url]
    ensures opts.tlsConfig == if SelectTransport(mc).tls.Some? then SelectTransport(mc).tls else old(opts.tlsConfig)
  {
    if mc.port == PlainPort {
      opts.AddBroker(BrokerUrl(Tcp, mc.broker, mc.port));
    } else {
      if mc.ca != "" {
        opts.AddBroker(BrokerUrl(Ssl, mc.broker, mc.port));
        opts.SetTLSConfig(SingleAuth(mc.ca));
      } else {
        opts.AddBroker(BrokerUrl(Mqtt, mc.broker, mc.port));
      }
    }
  }

  /** On fresh options, the builder ends up holding the selected URL alone
      and the selected TLS configuration. */
  method NewTransportOptions(mc: MqttClient) returns (opts: ClientOptions)
    ensures fresh(opts)
    ensures opts.servers == [SelectTransport(mc).url]
    ensures opts.tlsConfig == SelectTransport(mc).tls
  {
    opts := new ClientOptions();
    ConfigureTransport(mc, opts);
  }
}

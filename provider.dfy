/**
 * The provider itself: the checks `Configure` makes on its configuration,
 * the client options it derives (credentials and timeouts), the hand-off of
 * the connected client, and the registry of resources and data sources.
 */
module Provider {
  import opened Wrappers
  import opened Framework
  import opened Text

  /** `providerModel`. */
  datatype ProviderConfig = ProviderConfig(uri: TfString, username: TfString, password: TfString)

  /** `options.Credential` with the two fields the provider sets. */
  datatype Credential = Credential(username: string, password: string)

  /** The client options `Configure` builds; durations in nanoseconds, as `time.Duration`. */
  datatype ClientOptions = ClientOptions(uri: string, auth: Option<Credential>, serverSelectionTimeout: int, connectTimeout: int)

  /** `time.Second` in nanoseconds. */
  const Second: int := 1_000_000_000
  /** The server-selection and connect timeout. */
  const Timeout: int := 10 * Second

  /**
   * The option checks of `Configure`: a URI is required, and username or
   * password may not be combined with a URI that carries userinfo (any
   * "@"). Credentials are attached exactly when either is non-empty.
   */
  function ClientOptionsFor(config: ProviderConfig): (r: Result<ClientOptions, Diagnostic>)
    ensures ValueString(config.uri) == "" ==> r == Failure(Error("Missing URI", Text("The 'uri' attribute is required")))
    ensures ValueString(config.uri) != "" && (ValueString(config.username) != "" || ValueString(config.password) != "") &&
            ContainsChar(ValueString(config.uri), '@') ==>
              r == Failure(Error("Invalid Credentials Setup", Text("When username/password are provided, SRV must not contain userinfo")))
    ensures r.Success? <==> ValueString(config.uri) != "" &&
                            ((ValueString(config.username) == "" && ValueString(config.password) == "") || !ContainsChar(ValueString(config.uri), '@'))
    ensures r.Success? ==> r.value.uri == ValueString(config.uri)
    ensures r.Success? ==> (r.value.auth.Some? <==> ValueString(config.username) != "" || ValueString(config.password) != "")
    ensures r.Success? && r.value.auth.Some? ==>
              r.value.auth.value == Credential(ValueString(config.username), ValueString(config.password))
    ensures r.Success? ==> r.value.serverSelectionTimeout == Timeout && r.value.connectTimeout == Timeout
  {
    var uri, user, pass := ValueString(config.uri), ValueString(config.username), ValueString(config.password);
    if uri == "" then Failure(Error("Missing URI", Text("The 'uri' attribute is required")))
    else if (user != "" || pass != "") && ContainsChar(uri, '@') then
      Failure(Error("Invalid Credentials Setup", Text("When username/password are provided, SRV must not contain userinfo")))
    else
      var auth := if user != "" || pass != "" then Some(Credential(user, pass)) else None;
      Success(ClientOptions(uri, auth, Timeout, Timeout))
  }

  /** What `Configure` hands over: the client for resources and for data sources. */
  datatype Configured<H> = Configured(resourceData: H, dataSourceData: H)

  /**
   * `Configure`: check the options, then connect and ping. `connect` is the
   * outcome of `mongo.Connect` with the derived options and `ping` the error
   * of `Ping`, if any; neither is attempted when the options are refused.
   */
  function Configure<H>(config: ProviderConfig, connect: ClientOptions -> Result<H, string>, ping: H -> Option<string>)
    : (r: (Option<Configured<H>>, seq<Diagnostic>))
    ensures r.0.Some? <==> r.1 == []
    ensures |r.1| <= 1 && (r.1 != [] ==> r.1[0].Error?)
    ensures ClientOptionsFor(config).Failure? ==> r == (None, [ClientOptionsFor(config).error])
    ensures ClientOptionsFor(config).Success? && connect(ClientOptionsFor(config).value).Failure? ==>
              r == (None, [Error("Mongo connect failed", Text(connect(ClientOptionsFor(config).value).error))])
    ensures ClientOptionsFor(config).Success? && connect(ClientOptionsFor(config).value).Success? ==>
              var client := connect(ClientOptionsFor(config).value).value;
              (ping(client).Some? ==> r == (None, [Error("Mongo ping failed", Text(ping(client).value))])) &&
              (ping(client).None? ==> r == (Some(Configured(client, client)), []))
  {
    match ClientOptionsFor(config)
    case Failure(d) => (None, [d])
    case Success(opts) =>
      match connect(opts)
      case Failure(e) => (None, [Error("Mongo connect failed", Text(e))])
      case Success(client) =>
        match ping(client)
        case Some(e) => (None, [Error("Mongo ping failed", Text(e))])
        case None => (Some(Configured(client, client)), [])
  }

  /** A successful configuration hands the same client to resources and data sources. */
  lemma SameClientEverywhere<H>(config: ProviderConfig, connect: ClientOptions -> Result<H, string>, ping: H -> Option<string>)
    requires Configure(config, connect, ping).0.Some?
    ensures var c := Configure(config, connect, ping).0.value;
            c.resourceData == c.dataSourceData &&
            connect(ClientOptionsFor(config).value) == Success(c.resourceData)
  {
  }

  /** A configuration without a URI or with credentials beside userinfo never connects. */
  lemma RefusedOptionsNeverConnect<H>(config: ProviderConfig, connect: ClientOptions -> Result<H, string>,
                                      connect': ClientOptions -> Result<H, string>, ping: H -> Option<string>)
    requires ClientOptionsFor(config).Failure?
    ensures Configure(config, connect, ping) == Configure(config, connect', ping)
  {
  }

  /** The resources and data sources the provider registers. */
  datatype Kind = Database | Collection | Index

  /** `Resources`. */
  function Resources(): (kinds: seq<Kind>)
    ensures |kinds| == 3 && kinds[0] == Database && kinds[1] == Collection && kinds[2] == Index
  {
    [Database, Collection, Index]
  }

  /** `DataSources`. */
  function DataSources(): (kinds: seq<Kind>)
    ensures |kinds| == 3 && kinds[0] == Database && kinds[1] == Collection && kinds[2] == Index
  {
    [Database, Collection, Index]
  }

  /** Every kind has exactly one resource and one data source. */
  lemma EachKindOnce(k: Kind)
    ensures multiset(Resources())[k] == 1 && multiset(DataSources())[k] == 1
  {
  }
}

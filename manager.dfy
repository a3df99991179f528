/**
 * Manager<TClient, TConfig>: the base class of every AWS client manager.
 * Construction checks its arguments and captures the options; the first read
 * of `Client` builds a configuration (copying the resolved region and every
 * option the configuration type supports), constructs the client and caches
 * it; Dispose(true) marks the manager disposed and disposes the client, which
 * it obtains by reading `Client`.
 */
module Runtime {
  import opened Wrappers
  import opened AwsTypes

  /**
   * A configuration value. The SDK's setting types (bool, int, TimeSpan,
   * string, credentials, ...) are not modelled: a setting is an opaque token.
   */
  datatype Value = Region(endpoint: Option<RegionEndpoint>) | Setting(token: int)

  /** The ClientConfig members the build step assigns, in the order it assigns them. */
  datatype ConfigField =
    | RegionEndpointField | AllowAutoRedirect | ResignRetries | AuthenticationRegion
    | AuthenticationServiceName | BufferSize | DisableLogging | LogMetrics
    | MaxConnectionsPerServer | LogResponse | MaxErrorRetry | ProgressUpdateInterval
    | ProxyCredentials | ProxyHost | ProxyPort | SignatureMethod | ThrottleRetries
    | Timeout | UseDualstackEndpoint | UseHttp

  /** ManagerOptions: the nineteen tunables a caller may set up. */
  datatype ManagerOptions = ManagerOptions(
    allowAutoRedirect: Value, resignRetries: Value, authenticationRegion: Value,
    authenticationServiceName: Value, bufferSize: Value, disableLogging: Value,
    logMetrics: Value, maxConnectionsPerServer: Value, logResponse: Value,
    maxErrorRetry: Value, progressUpdateInterval: Value, proxyCredentials: Value,
    proxyHost: Value, proxyPort: Value, signatureMethod: Value, throttleRetries: Value,
    timeout: Value, useDualStackEndpoint: Value, useHttp: Value)

  /**
   * What reflection finds on TConfig: the members it has (an assignment to any
   * other member is skipped) and the values of a freshly created instance.
   */
  datatype ConfigType = ConfigType(supported: set<ConfigField>, defaults: map<ConfigField, Value>)

  /** What reflection finds on TClient: whether it has an (AWSCredentials, ClientConfig) constructor. */
  datatype ClientType = ClientType(hasConfigConstructor: bool)

  /** ArgumentNullException with the parameter name. */
  datatype ArgumentError = ArgumentNull(paramName: string)

  /** The exception ActivatorUtility raises when TClient has no matching constructor. */
  datatype ConstructionError = MissingConstructor

  /** The value the build step assigns to `f`: the resolved region, or the option of the same name. */
  function Assigned(f: ConfigField, region: Option<RegionEndpoint>, o: ManagerOptions): Value
  {
    match f
    case RegionEndpointField => Region(region)
    case AllowAutoRedirect => o.allowAutoRedirect
    case ResignRetries => o.resignRetries
    case AuthenticationRegion => o.authenticationRegion
    case AuthenticationServiceName => o.authenticationServiceName
    case BufferSize => o.bufferSize
    case DisableLogging => o.disableLogging
    case LogMetrics => o.logMetrics
    case MaxConnectionsPerServer => o.maxConnectionsPerServer
    case LogResponse => o.logResponse
    case MaxErrorRetry => o.maxErrorRetry
    case ProgressUpdateInterval => o.progressUpdateInterval
    case ProxyCredentials => o.proxyCredentials
    case ProxyHost => o.proxyHost
    case ProxyPort => o.proxyPort
    case SignatureMethod => o.signatureMethod
    case ThrottleRetries => o.throttleRetries
    case Timeout => o.timeout
    case UseDualstackEndpoint => o.useDualStackEndpoint
    case UseHttp => o.useHttp
  }

  /**
   * A built configuration: every supported member holds the value assigned to
   * it, and every other member is exactly as the fresh instance had it.
   */
  ghost predicate IsPopulated(config: map<ConfigField, Value>, t: ConfigType,
                              region: Option<RegionEndpoint>, o: ManagerOptions)
  {
    forall f: ConfigField ::
      if f in t.supported then f in config && config[f] == Assigned(f, region, o)
      else (f in config <==> f in t.defaults) && (f in config ==> config[f] == t.defaults[f])
  }

  /** IgnoreMissingMethod on a value: assign `f` if the type has it, otherwise leave the values alone. */
  function AssignIfSupported(values: map<ConfigField, Value>, supported: set<ConfigField>,
                             f: ConfigField, v: Value): map<ConfigField, Value>
  {
    if f in supported then values[f := v] else values
  }

  /**
   * The members the build step's IgnoreMissingMethod chain assigns, in the
   * order of the chain: the region first, then the options in declaration order.
   */
  const BuildOrder: seq<ConfigField> :=
    [RegionEndpointField, AllowAutoRedirect, ResignRetries, AuthenticationRegion,
     AuthenticationServiceName, BufferSize, DisableLogging, LogMetrics, MaxConnectionsPerServer,
     LogResponse, MaxErrorRetry, ProgressUpdateInterval, ProxyCredentials, ProxyHost, ProxyPort,
     SignatureMethod, ThrottleRetries, Timeout, UseDualstackEndpoint, UseHttp]

  /** The configuration after running the chain links for `links` on `values`. */
  function Run(values: map<ConfigField, Value>, t: ConfigType, region: Option<RegionEndpoint>,
               o: ManagerOptions, links: seq<ConfigField>): map<ConfigField, Value>
    decreases |links|
  {
    if links == [] then values
    else Run(AssignIfSupported(values, t.supported, links[0], Assigned(links[0], region, o)), t, region, o, links[1..])
  }

  /**
   * Running a chain gives every member it names that TConfig has its assigned
   * value, and leaves every other member as it was.
   */
  lemma {:induction false} RunMeaning(values: map<ConfigField, Value>, t: ConfigType,
                                      region: Option<RegionEndpoint>, o: ManagerOptions,
                                      links: seq<ConfigField>, f: ConfigField)
    ensures var r := Run(values, t, region, o, links);
            if f in t.supported && f in links then f in r && r[f] == Assigned(f, region, o)
            else (f in r <==> f in values) && (f in r ==> r[f] == values[f])
    decreases |links|
  {
    if links != [] {
      RunMeaning(AssignIfSupported(values, t.supported, links[0], Assigned(links[0], region, o)),
                 t, region, o, links[1..], f);
      assert f in links <==> f == links[0] || f in links[1..] by {
        assert links == [links[0]] + links[1..];
      }
    }
  }

  /** A chain is complete when it names every member. */
  predicate Complete(links: seq<ConfigField>)
  {
    forall f: ConfigField :: f in links
  }

  /** A complete chain, run on a fresh instance, populates the configuration. */
  lemma CompleteChainPopulates(t: ConfigType, region: Option<RegionEndpoint>, o: ManagerOptions,
                               links: seq<ConfigField>)
    requires Complete(links)
    ensures IsPopulated(Run(t.defaults, t, region, o, links), t, region, o)
  {
    forall f: ConfigField
      ensures var r := Run(t.defaults, t, region, o, links);
              if f in t.supported then f in r && r[f] == Assigned(f, region, o)
              else (f in r <==> f in t.defaults) && (f in r ==> r[f] == t.defaults[f])
    {
      RunMeaning(t.defaults, t, region, o, links, f);
    }
  }

  /** The build step's chain names every member of the configuration. */
  lemma BuildOrderComplete()
    ensures Complete(BuildOrder)
  {
    forall f: ConfigField
      ensures f in BuildOrder
    {
      match f
      case RegionEndpointField => assert BuildOrder[0] == f;
      case AllowAutoRedirect => assert BuildOrder[1] == f;
      case ResignRetries => assert BuildOrder[2] == f;
      case AuthenticationRegion => assert BuildOrder[3] == f;
      case AuthenticationServiceName => assert BuildOrder[4] == f;
      case BufferSize => assert BuildOrder[5] == f;
      case DisableLogging => assert BuildOrder[6] == f;
      case LogMetrics => assert BuildOrder[7] == f;
      case MaxConnectionsPerServer => assert BuildOrder[8] == f;
      case LogResponse => assert BuildOrder[9] == f;
      case MaxErrorRetry => assert BuildOrder[10] == f;
      case ProgressUpdateInterval => assert BuildOrder[11] == f;
      case ProxyCredentials => assert BuildOrder[12] == f;
      case ProxyHost => assert BuildOrder[13] == f;
      case ProxyPort => assert BuildOrder[14] == f;
      case SignatureMethod => assert BuildOrder[15] == f;
      case ThrottleRetries => assert BuildOrder[16] == f;
      case Timeout => assert BuildOrder[17] == f;
      case UseDualstackEndpoint => assert BuildOrder[18] == f;
      case UseHttp => assert BuildOrder[19] == f;
    }
  }

  /** The build step's outcome is determined by the configuration type, the region and the options. */
  lemma PopulatedUnique(c1: map<ConfigField, Value>, c2: map<ConfigField, Value>, t: ConfigType,
                        region: Option<RegionEndpoint>, o: ManagerOptions)
    requires IsPopulated(c1, t, region, o) && IsPopulated(c2, t, region, o)
    ensures c1 == c2
  {
    assert forall f :: f in c1 <==> f in c2;
    assert c1.Keys == c2.Keys;
  }

  /** The configured region is the resolver's answer; the options play no part in it. */
  lemma RegionIgnoresOptions(c1: map<ConfigField, Value>, c2: map<ConfigField, Value>, t: ConfigType,
                             region: Option<RegionEndpoint>, o1: ManagerOptions, o2: ManagerOptions)
    requires IsPopulated(c1, t, region, o1) && IsPopulated(c2, t, region, o2)
    requires RegionEndpointField in t.supported
    ensures RegionEndpointField in c1 && RegionEndpointField in c2
    ensures c1[RegionEndpointField] == c2[RegionEndpointField] == Region(region)
  {
    assert Assigned(RegionEndpointField, region, o1) == Region(region);
  }

  /**
   * ConfigureOptions: the options record a manager captures: the defaults, or
   * what the setup callback makes of them.
   */
  function ConfigureOptions(setup: Option<ManagerOptions -> ManagerOptions>, defaults: ManagerOptions)
    : ManagerOptions
  {
    if setup.None? then defaults else setup.value(defaults)
  }

  /** A TConfig instance under construction. */
  class ClientConfig {
    const supported: set<ConfigField>
    var values: map<ConfigField, Value>

    /** ActivatorUtility.CreateInstance<TConfig>(): a fresh instance with the type's defaults. */
    constructor (t: ConfigType)
      ensures supported == t.supported && values == t.defaults
    {
      supported := t.supported;
      values := t.defaults;
    }

    /** IgnoreMissingMethod(c => c.F = v): assigns `f` when TConfig has it, otherwise does nothing. */
    method Assign(f: ConfigField, v: Value)
      modifies this
      ensures values == AssignIfSupported(old(values), supported, f, v)
    {
      if f in supported {
        values := values[f := v];
      }
    }
  }

  /** A TClient instance: built from credentials and a configuration, disposable. */
  class Client {
    const credentials: Credentials
    const config: map<ConfigField, Value>
    var disposed: bool

    constructor (credentials: Credentials, config: map<ConfigField, Value>)
      ensures this.credentials == credentials && this.config == config && !disposed
    {
      this.credentials := credentials;
      this.config := config;
      disposed := false;
    }

    /** The SDK client's own Dispose, reduced to its observable effect. */
    method Dispose()
      modifies this
      ensures disposed
    {
      disposed := true;
    }
  }

  class Manager {
    const credentials: Credentials
    /** regionEndpointParser */
    const resolver: () -> Option<RegionEndpoint>
    /** The options captured at construction. */
    const options: ManagerOptions
    const configType: ConfigType
    const clientType: ClientType
    /** The Lazy<TClient> slot: empty until the first successful read of Client. */
    var client: Option<Client>
    /** _isDisposed */
    var disposed: bool
    /** How many times the build step has constructed a TClient for this manager (counted in Build). */
    ghost var constructions: nat

    /** The slot holds at most one client, built from this manager's own credentials and configuration. */
    ghost predicate SlotValid()
      reads this
    {
      constructions == (if client.Some? then 1 else 0) &&
      (client.Some? ==>
         clientType.hasConfigConstructor &&
         client.value.credentials == credentials &&
         IsPopulated(client.value.config, configType, resolver(), options))
    }

    ghost function ClientObjects(): set<object>
      reads this
    {
      if client.Some? then {client.value} else {}
    }

    /**
     * The lifecycle: the cached client is disposed exactly when the manager is,
     * and a disposed manager has read Client, so it holds a client whenever
     * TClient can be constructed.
     */
    ghost predicate Valid()
      reads this, ClientObjects()
    {
      SlotValid() &&
      (client.Some? ==> (client.value.disposed <==> disposed)) &&
      (disposed ==> (client.Some? <==> clientType.hasConfigConstructor))
    }

    /** The part of the constructor after the null checks: it captures its inputs and builds nothing. */
    constructor (credentials: Credentials, resolver: () -> Option<RegionEndpoint>,
                 options: ManagerOptions, configType: ConfigType, clientType: ClientType)
      ensures this.credentials == credentials && this.resolver == resolver
      ensures this.options == options && this.configType == configType && this.clientType == clientType
      ensures client.None? && !disposed && constructions == 0
      ensures Valid()
    {
      this.credentials := credentials;
      this.resolver := resolver;
      this.options := options;
      this.configType := configType;
      this.clientType := clientType;
      client := None;
      disposed := false;
      constructions := 0;
    }

    /**
     * Runs the IgnoreMissingMethod links for `links` on `c`, one at a time and
     * in order: each assigns its member's value when TConfig has the member
     * and is skipped otherwise.
     */
    method RunLinks(c: ClientConfig, region: Option<RegionEndpoint>, links: seq<ConfigField>)
      requires c.supported == configType.supported
      modifies c
      ensures c.values == Run(old(c.values), configType, region, options, links)
      decreases |links|
    {
      if links != [] {
        c.Assign(links[0], Assigned(links[0], region, options));
        RunLinks(c, region, links[1..]);
      }
    }

    /**
     * The configuration half of the deferred build step: a fresh TConfig, the
     * resolved region, then every option, each skipped when TConfig lacks it.
     */
    method Configure() returns (config: map<ConfigField, Value>)
      ensures IsPopulated(config, configType, resolver(), options)
    {
      var c := new ClientConfig(configType);
      var region := resolver();
      RunLinks(c, region, BuildOrder);
      config := c.values;
      BuildOrderComplete();
      CompleteChainPopulates(configType, region, options, BuildOrder);
    }

    /**
     * The deferred build step: configure, then construct the client from the
     * stored credentials and the fully populated configuration.
     */
    method Build() returns (r: Result<Client, ConstructionError>)
      modifies this
      ensures clientType.hasConfigConstructor ==>
                r.Success? && fresh(r.value) && !r.value.disposed &&
                r.value.credentials == credentials &&
                IsPopulated(r.value.config, configType, resolver(), options)
      ensures !clientType.hasConfigConstructor ==> r == Failure(MissingConstructor)
      ensures constructions == old(constructions) + (if clientType.hasConfigConstructor then 1 else 0)
      ensures client == old(client) && disposed == old(disposed)
    {
      var config := Configure();
      if clientType.hasConfigConstructor {
        var c := new Client(credentials, config);
        constructions := constructions + 1;
        r := Success(c);
      } else {
        r := Failure(MissingConstructor);
      }
    }

    /**
     * The Client property (_client.Value): builds and caches on the first
     * successful read, and afterwards returns the cached instance without
     * building again. A failed build leaves the slot empty.
     */
    method GetClient() returns (r: Result<Client, ConstructionError>)
      requires SlotValid()
      modifies this
      ensures SlotValid()
      ensures disposed == old(disposed)
      ensures old(client).Some? ==>
                r == Success(old(client).value) && client == old(client) &&
                constructions == old(constructions)
      ensures old(client).None? && clientType.hasConfigConstructor ==>
                r.Success? && fresh(r.value) && !r.value.disposed && client == Some(r.value) &&
                constructions == old(constructions) + 1
      ensures old(client).None? && !clientType.hasConfigConstructor ==>
                r == Failure(MissingConstructor) && client.None? && constructions == old(constructions)
      ensures old(Valid()) ==> Valid()
    {
      if client.Some? {
        return Success(client.value);
      }
      r := Build();
      if r.Success? {
        client := Some(r.value);
      }
    }

    /**
     * Dispose(bool): does nothing when already disposed or when `disposing` is
     * false; otherwise marks the manager disposed, then reads Client (building
     * it if it was never read) and disposes it. A failed build propagates.
     */
    method DisposeCore(disposing: bool) returns (r: Outcome<ConstructionError>)
      requires Valid()
      modifies this, ClientObjects()
      ensures Valid()
      ensures old(disposed) || !disposing ==>
                r == Pass && unchanged(this) && unchanged(ClientObjects())
      ensures !old(disposed) && disposing ==> disposed
      ensures !old(disposed) && disposing && old(client).Some? ==>
                r == Pass && client == old(client) && client.value.disposed &&
                constructions == old(constructions)
      ensures !old(disposed) && disposing && old(client).None? && clientType.hasConfigConstructor ==>
                r == Pass && client.Some? && fresh(client.value) && client.value.disposed &&
                constructions == 1
      ensures !old(disposed) && disposing && old(client).None? && !clientType.hasConfigConstructor ==>
                r == Fail(MissingConstructor) && client.None? && constructions == 0
    {
      if disposed || !disposing {
        return Pass;
      }
      disposed := true;
      var c := GetClient();
      if c.Success? {
        c.value.Dispose();
        r := Pass;
      } else {
        r := Fail(c.error);
      }
    }

    /** Dispose(): Dispose(true); the finalizer suppression has no modelled effect. */
    method Dispose() returns (r: Outcome<ConstructionError>)
      requires Valid()
      modifies this, ClientObjects()
      ensures Valid() && disposed
      ensures old(disposed) ==> r == Pass && unchanged(this) && unchanged(ClientObjects())
      ensures clientType.hasConfigConstructor ==>
                r == Pass && client.Some? && client.value.disposed && constructions == 1
      ensures old(client).Some? ==> client == old(client)
      ensures !old(disposed) && !clientType.hasConfigConstructor ==>
                r == Fail(MissingConstructor) && client.None? && constructions == 0
      ensures old(client).None? && client.Some? ==> fresh(client.value)
    {
      r := DisposeCore(true);
    }
  }

  /**
   * The constructor's argument checks (credentials first, then the parser),
   * followed by capturing the configured options. A null argument raises
   * before anything is captured.
   */
  method NewManager(credentials: Option<Credentials>,
                    regionEndpointParser: Option<() -> Option<RegionEndpoint>>,
                    setup: Option<ManagerOptions -> ManagerOptions>, defaults: ManagerOptions,
                    configType: ConfigType, clientType: ClientType)
    returns (r: Result<Manager, ArgumentError>)
    ensures credentials.None? ==> r == Failure(ArgumentNull("credentials"))
    ensures credentials.Some? && regionEndpointParser.None? ==>
              r == Failure(ArgumentNull("regionEndpointParser"))
    ensures credentials.Some? && regionEndpointParser.Some? ==>
              r.Success? && fresh(r.value) && r.value.Valid() &&
              r.value.client.None? && !r.value.disposed && r.value.constructions == 0 &&
              r.value.credentials == credentials.value &&
              r.value.resolver == regionEndpointParser.value &&
              r.value.options == ConfigureOptions(setup, defaults) &&
              r.value.configType == configType && r.value.clientType == clientType
  {
    if credentials.None? {
      return Failure(ArgumentNull("credentials"));
    }
    if regionEndpointParser.None? {
      return Failure(ArgumentNull("regionEndpointParser"));
    }
    var options := ConfigureOptions(setup, defaults);
    var m := new Manager(credentials.value, regionEndpointParser.value, options, configType, clientType);
    r := Success(m);
  }
}

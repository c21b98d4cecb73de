/** The hosted service that runs the web application inside the generic host.

    Construction checks its options and every injected dependency for null.
    Starting it (1) fills an empty, writable server address list from the
    server-URLs setting, (2) folds the startup filters around the
    configure-application delegate, runs the result on a fresh application
    builder and builds the pipeline, (3) starts the server with it, and
    (4) logs every address the server then reports. Stopping it forwards the
    cancellation token to the server. */
module WebHosting {
  import opened Wrappers
  import Strings
  import opened StartupFilters
  import opened HostingLogger
  import opened Settings

  /** Configuration key of the server URLs (`WebHostDefaults.ServerUrlsKey`). */
  const ServerUrlsKey: string := "urls"
  /** Configuration key of the prefer-hosting-URLs flag (`WebHostDefaults.PreferHostingUrlsKey`). */
  const PreferHostingUrlsKey: string := "preferHostingUrls"

  function ToLowerAscii(c: char): char
  {
    if 'A' <= c <= 'Z' then (c as int + 32) as char else c
  }

  /** Ordinal, case-insensitive equality over ASCII letters. */
  predicate EqualsIgnoreCase(a: string, b: string)
  {
    |a| == |b| && forall i :: 0 <= i < |a| ==> ToLowerAscii(a[i]) == ToLowerAscii(b[i])
  }

  /** `WebHostUtilities.ParseBool(configuration, key)`: the setting reads
      `true` in any letter case, or `1`. */
  predicate ParseBool(configuration: Configuration, key: string)
  {
    key in configuration && (EqualsIgnoreCase(configuration[key], "true") || configuration[key] == "1")
  }

  /** The spellings `ParseBool` accepts and some it refuses: `true` in any
      letter case and `1` read as true; anything else, padded or repeated
      spellings included, and a missing key read as false. */
  lemma ParseBoolCases(key: string)
    ensures ParseBool(map[key := "true"], key) && ParseBool(map[key := "True"], key)
    ensures ParseBool(map[key := "TRUE"], key) && ParseBool(map[key := "tRuE"], key)
    ensures ParseBool(map[key := "1"], key)
    ensures !ParseBool(map[], key)
    ensures !ParseBool(map[key := "false"], key) && !ParseBool(map[key := "0"], key)
    ensures !ParseBool(map[key := ""], key) && !ParseBool(map[key := "11"], key)
    ensures !ParseBool(map[key := " true"], key) && !ParseBool(map[key := "trux"], key)
  {
    assert !EqualsIgnoreCase("trux", "true") by {
      assert ToLowerAscii("trux"[3]) != ToLowerAscii("true"[3]);
    }
  }

  /** An opaque, non-null service the host injects and this model never inspects. */
  datatype Handle = Handle(id: nat)

  datatype CancellationToken = CancellationToken(id: nat)

  /** What the server is given to run: the built request pipeline. */
  datatype HostingApplication = HostingApplication(pipeline: seq<string>)

  /** A call the service makes on the server. */
  datatype ServerCall = Start(application: HostingApplication, token: CancellationToken) | Stop(token: CancellationToken)

  /** The exceptions construction and start can raise. */
  datatype HostingError =
    | ArgumentNull(paramName: string)
    | Argument(message: string)
    | NullReference

  /** `WebHostServiceOptions`: the configure-application delegate (possibly
      unset), the host options and any captured startup exception. */
  datatype WebHostServiceOptions = WebHostServiceOptions(
    configureApplication: Option<Configure>,
    hostOptions: Option<Handle>,
    startupExceptions: Option<Exception>)

  /** `IServerAddressesFeature`: the address collection, whether it is
      read-only, and the prefer-hosting-URLs flag. */
  class AddressesFeature {
    var isReadOnly: bool
    var addresses: seq<string>
    var preferHostingUrls: bool

    constructor (isReadOnly: bool, addresses: seq<string>, preferHostingUrls: bool)
      ensures this.isReadOnly == isReadOnly && this.addresses == addresses
      ensures this.preferHostingUrls == preferHostingUrls
    {
      this.isReadOnly := isReadOnly;
      this.addresses := addresses;
      this.preferHostingUrls := preferHostingUrls;
    }

    /** `addresses.Add(value)`. */
    method Add(value: string)
      modifies this
      ensures addresses == old(addresses) + [value]
      ensures isReadOnly == old(isReadOnly) && preferHostingUrls == old(preferHostingUrls)
    {
      addresses := addresses + [value];
    }
  }

  /** The server's feature collection, holding the addresses feature or not. */
  class FeatureCollection {
    const addressesFeature: AddressesFeature?

    constructor (addressesFeature: AddressesFeature?)
      ensures this.addressesFeature == addressesFeature
    {
      this.addressesFeature := addressesFeature;
    }
  }

  /** `IServer`: its features (possibly null) and the calls it received. */
  class Server {
    const features: FeatureCollection?
    var calls: seq<ServerCall>

    constructor (features: FeatureCollection?)
      ensures this.features == features && calls == []
    {
      this.features := features;
      calls := [];
    }

    /** `Features?.Get<IServerAddressesFeature>()`. */
    function AddressesFeature(): AddressesFeature?
    {
      if features == null then null else features.addressesFeature
    }

    method StartAsync(application: HostingApplication, token: CancellationToken)
      modifies this
      ensures calls == old(calls) + [Start(application, token)]
    {
      calls := calls + [Start(application, token)];
    }

    method StopAsync(token: CancellationToken)
      modifies this
      ensures calls == old(calls) + [Stop(token)]
    {
      calls := calls + [Stop(token)];
    }
  }

  /** The application builder the factory creates: the middleware registered
      on it so far. */
  class ApplicationBuilder {
    var middleware: AppBuilder

    constructor ()
      ensures middleware == []
    {
      middleware := [];
    }

    /** Runs a configure delegate on this builder. */
    method Run(configure: Configure)
      modifies this
      ensures middleware == configure(old(middleware))
    {
      middleware := configure(middleware);
    }

    /** `Build()`: the request pipeline of the registered middleware. */
    method Build() returns (pipeline: seq<string>)
      ensures pipeline == middleware
    {
      pipeline := middleware;
    }
  }

  /** The value of an addresses feature, as the population step sees it. */
  datatype AddressesState = AddressesState(isReadOnly: bool, addresses: seq<string>, preferHostingUrls: bool)

  /** The server URLs the configuration supplies: absent, or a non-empty string. */
  function ServerUrls(configuration: Configuration): (r: Option<string>)
    ensures r.Some? <==> ServerUrlsKey in configuration && configuration[ServerUrlsKey] != ""
    ensures r.Some? ==> r.value == configuration[ServerUrlsKey]
  {
    match Lookup(configuration, ServerUrlsKey)
    case Some(urls) => if urls != "" then Some(urls) else None
    case None => None
  }

  /** The addresses feature after the population step of `StartAsync`. */
  function PopulateAddresses(s: AddressesState, configuration: Configuration): (r: AddressesState)
    ensures r.isReadOnly == s.isReadOnly
    // only a writable, empty list with URLs configured is touched
    ensures (s.isReadOnly || s.addresses != [] || ServerUrls(configuration).None?) ==> r == s
    // a populated list holds exactly the non-empty ';'-separated pieces, in order
    ensures !s.isReadOnly && s.addresses == [] && ServerUrls(configuration).Some? ==>
              r.addresses == Strings.Split(ServerUrls(configuration).value, ';')
              && r.preferHostingUrls == ParseBool(configuration, PreferHostingUrlsKey)
    // no added address is empty or holds a separator
    ensures r != s ==> Strings.NoEmpty(r.addresses) && Strings.SeparatorFree(r.addresses, ';')
  {
    if !s.isReadOnly && s.addresses == [] then
      match ServerUrls(configuration)
      case Some(urls) =>
        AddressesState(s.isReadOnly, Strings.Split(urls, ';'), ParseBool(configuration, PreferHostingUrlsKey))
      case None => s
    else s
  }

  /** Populating twice is populating once. */
  lemma PopulateIdempotent(s: AddressesState, configuration: Configuration)
    ensures PopulateAddresses(PopulateAddresses(s, configuration), configuration) == PopulateAddresses(s, configuration)
  {
  }

  /** Nothing in the configured value is trimmed or reordered: the populated
      addresses spell out the setting with its separators removed. */
  lemma PopulateKeepsContent(s: AddressesState, configuration: Configuration)
    requires !s.isReadOnly && s.addresses == [] && ServerUrls(configuration).Some?
    ensures Strings.Concat(PopulateAddresses(s, configuration).addresses)
            == Strings.Without(configuration[ServerUrlsKey], ';')
  {
    Strings.SplitContent(configuration[ServerUrlsKey], ';');
  }

  /** URLs written as a `;`-joined setting come back as exactly those URLs,
      in the same order and with duplicates kept. */
  lemma PopulateFromJoined(s: AddressesState, configuration: Configuration, urls: seq<string>)
    requires !s.isReadOnly && s.addresses == []
    requires urls != [] && Strings.NoEmpty(urls) && Strings.SeparatorFree(urls, ';')
    requires Lookup(configuration, ServerUrlsKey) == Some(Strings.Join(urls, ';'))
    ensures PopulateAddresses(s, configuration).addresses == urls
  {
    Strings.SplitJoin(urls, ';');
    assert urls[0] != "";
    Strings.JoinNonEmpty(urls, ';');
  }

  /** The setting `http://a;http://b` on an empty list gives exactly
      `[http://a, http://b]`. */
  lemma PopulateTwoUrls(s: AddressesState)
    requires !s.isReadOnly && s.addresses == []
    ensures PopulateAddresses(s, map[ServerUrlsKey := "http://a;http://b"]).addresses == ["http://a", "http://b"]
  {
    var urls := ["http://a", "http://b"];
    assert Strings.Join(urls, ';') == "http://a;http://b";
    PopulateFromJoined(s, map[ServerUrlsKey := "http://a;http://b"], urls);
  }

  /** The entry logged for each address once the server has started. */
  function ListeningEntries(addresses: seq<string>): (r: seq<LogEntry>)
    ensures |r| == |addresses|
    ensures forall i :: 0 <= i < |addresses| ==>
              r[i] == LogEntry(Information, 0, "Now listening on: " + addresses[i], None)
  {
    if addresses == [] then []
    else [LogEntry(Information, 0, "Now listening on: " + addresses[0], None)] + ListeningEntries(addresses[1..])
  }

  /** The first null among the named dependencies, in the order the
      constructor checks them. */
  function FirstNull(dependencies: seq<(string, bool)>): (r: Option<HostingError>)
    ensures r.None? <==> forall i :: 0 <= i < |dependencies| ==> dependencies[i].1
    ensures r.Some? ==> exists i :: 0 <= i < |dependencies| && !dependencies[i].1
                          && r.value == ArgumentNull(dependencies[i].0)
                          && forall j :: 0 <= j < i ==> dependencies[j].1
  {
    if dependencies == [] then None
    else if !dependencies[0].1 then Some(ArgumentNull(dependencies[0].0))
    else
      var r := FirstNull(dependencies[1..]);
      if r.Some? then
        ghost var i :| 0 <= i < |dependencies[1..]| && !dependencies[1..][i].1
                       && r.value == ArgumentNull(dependencies[1..][i].0)
                       && forall j :: 0 <= j < i ==> dependencies[1..][j].1;
        assert !dependencies[i + 1].1 && forall j :: 0 <= j < i + 1 ==> dependencies[j].1;
        r
      else r
  }

  /** The exception the constructor throws, if any: null options first,
      then an unset configure-application delegate, then the first null
      dependency. */
  function ConstructionError(options: Option<WebHostServiceOptions>, dependencies: seq<(string, bool)>): (r: Option<HostingError>)
    ensures options.None? ==> r == Some(ArgumentNull("options"))
    ensures options.Some? && options.value.configureApplication.None? ==> r == Some(Argument("ConfigureApplication"))
    ensures r.None? <==> options.Some? && options.value.configureApplication.Some?
                         && forall i :: 0 <= i < |dependencies| ==> dependencies[i].1
    ensures options.Some? && options.value.configureApplication.Some? && r.Some? ==>
              exists i :: 0 <= i < |dependencies| && !dependencies[i].1
                && r.value == ArgumentNull(dependencies[i].0)
                && forall j :: 0 <= j < i ==> dependencies[j].1
  {
    match options
    case None => Some(ArgumentNull("options"))
    case Some(o) =>
      if o.configureApplication.None? then Some(Argument("ConfigureApplication"))
      else FirstNull(dependencies)
  }

  /** The constructor's dependencies, named and in the order it checks them,
      each with whether it is non-null. */
  function Dependencies(services: Option<Handle>, server: Server?, logger: Logger?,
                        diagnosticListener: Option<Handle>, httpContextFactory: Option<Handle>,
                        applicationBuilderFactory: Option<Handle>,
                        startupFilters: Option<seq<StartupFilter>>,
                        configuration: Option<Configuration>): seq<(string, bool)>
  {
    [("services", services.Some?), ("server", server != null), ("logger", logger != null),
     ("diagnosticListener", diagnosticListener.Some?), ("httpContextFactory", httpContextFactory.Some?),
     ("applicationBuilderFactory", applicationBuilderFactory.Some?),
     ("startupFilters", startupFilters.Some?), ("configuration", configuration.Some?)]
  }

  class WebHostService {
    const options: WebHostServiceOptions
    const services: Handle
    const server: Server
    const logger: Logger
    const diagnosticListener: Handle
    const httpContextFactory: Handle
    const applicationBuilderFactory: Handle
    const startupFilters: seq<StartupFilter>
    const configuration: Configuration

    /** A constructed service always has its configure-application delegate. */
    predicate Valid()
    {
      options.configureApplication.Some?
    }

    constructor (options: WebHostServiceOptions, services: Handle, server: Server, logger: Logger,
                 diagnosticListener: Handle, httpContextFactory: Handle, applicationBuilderFactory: Handle,
                 startupFilters: seq<StartupFilter>, configuration: Configuration)
      requires options.configureApplication.Some?
      ensures Valid()
      ensures this.options == options && this.services == services && this.server == server
      ensures this.logger == logger && this.diagnosticListener == diagnosticListener
      ensures this.httpContextFactory == httpContextFactory
      ensures this.applicationBuilderFactory == applicationBuilderFactory
      ensures this.startupFilters == startupFilters && this.configuration == configuration
    {
      this.options := options;
      this.services := services;
      this.server := server;
      this.logger := logger;
      this.diagnosticListener := diagnosticListener;
      this.httpContextFactory := httpContextFactory;
      this.applicationBuilderFactory := applicationBuilderFactory;
      this.startupFilters := startupFilters;
      this.configuration := configuration;
    }

    /** `new WebHostService(...)`: the service, or the exception the guards
        throw, in which case no service exists. */
    static method Create(options: Option<WebHostServiceOptions>, services: Option<Handle>, server: Server?,
                         logger: Logger?, diagnosticListener: Option<Handle>, httpContextFactory: Option<Handle>,
                         applicationBuilderFactory: Option<Handle>, startupFilters: Option<seq<StartupFilter>>,
                         configuration: Option<Configuration>)
      returns (r: Result<WebHostService, HostingError>)
      ensures var err := ConstructionError(options, Dependencies(services, server, logger, diagnosticListener,
                                           httpContextFactory, applicationBuilderFactory, startupFilters, configuration));
              match r
              case Failure(e) => err == Some(e)
              case Success(s) =>
                err.None? && options.Some? && services.Some? && server != null && logger != null
                && diagnosticListener.Some? && httpContextFactory.Some? && applicationBuilderFactory.Some?
                && startupFilters.Some? && configuration.Some?
                && fresh(s) && s.Valid() && s.options == options.value
                && s.services == services.value && s.server == server && s.logger == logger
                && s.diagnosticListener == diagnosticListener.value
                && s.httpContextFactory == httpContextFactory.value
                && s.applicationBuilderFactory == applicationBuilderFactory.value
                && s.startupFilters == startupFilters.value && s.configuration == configuration.value
    {
      var err := ConstructionError(options, Dependencies(services, server, logger, diagnosticListener,
                                   httpContextFactory, applicationBuilderFactory, startupFilters, configuration));
      if err.Some? {
        return Failure(err.value);
      }
      var deps := Dependencies(services, server, logger, diagnosticListener,
                               httpContextFactory, applicationBuilderFactory, startupFilters, configuration);
      assert deps[0].1 && deps[1].1 && deps[2].1 && deps[3].1 && deps[4].1 && deps[5].1 && deps[6].1 && deps[7].1;
      var s := new WebHostService(options.value, services.value, server, logger, diagnosticListener.value,
                                  httpContextFactory.value, applicationBuilderFactory.value,
                                  startupFilters.value, configuration.value);
      return Success(s);
    }

    /** The delegate the startup filters build around the configure-application delegate. */
    function Pipeline(): Configure
      requires Valid()
    {
      Compose(startupFilters, options.configureApplication.value)
    }

    /** Lines 65-79 of `StartAsync`: fill an empty, writable address list
        from the server-URLs setting, one `Add` per piece. */
    method PopulateServerAddresses()
      modifies server.AddressesFeature()
      ensures var f := server.AddressesFeature();
              f != null ==>
                AddressesState(f.isReadOnly, f.addresses, f.preferHostingUrls)
                == PopulateAddresses(old(AddressesState(f.isReadOnly, f.addresses, f.preferHostingUrls)), configuration)
    {
      var feature := server.AddressesFeature();
      if feature != null && !feature.isReadOnly && |feature.addresses| == 0 {
        var urls := Lookup(configuration, ServerUrlsKey);
        if urls.Some? && urls.value != "" {
          feature.preferHostingUrls := ParseBool(configuration, PreferHostingUrlsKey);
          var pieces := Strings.Split(urls.value, ';');
          var i := 0;
          while i < |pieces|
            invariant 0 <= i <= |pieces|
            invariant feature.addresses == pieces[..i]
            invariant !feature.isReadOnly
            invariant feature.preferHostingUrls == ParseBool(configuration, PreferHostingUrlsKey)
          {
            feature.Add(pieces[i]);
            i := i + 1;
          }
          assert pieces[..i] == pieces;
        }
      }
    }

    /** `StartAsync(token)`: populate the addresses, build the pipeline from
        the folded filters on a fresh builder, start the server with it and
        log every address the server then reports. A server without a
        feature collection makes the final lookup throw after the start. */
    method StartAsync(token: CancellationToken) returns (error: Option<HostingError>)
      requires Valid()
      modifies server, server.AddressesFeature(), logger
      ensures var f := server.AddressesFeature();
              f != null ==>
                AddressesState(f.isReadOnly, f.addresses, f.preferHostingUrls)
                == PopulateAddresses(old(AddressesState(f.isReadOnly, f.addresses, f.preferHostingUrls)), configuration)
      ensures server.calls == old(server.calls) + [Start(HostingApplication(Pipeline()([])), token)]
      ensures server.features == null ==> error == Some(NullReference) && logger.entries == old(logger.entries)
      ensures server.features != null ==>
                error.None?
                && logger.entries == old(logger.entries)
                   + (if server.AddressesFeature() == null then [] else ListeningEntries(server.AddressesFeature().addresses))
    {
      PopulateServerAddresses();

      var builder := new ApplicationBuilder();
      var configure := FoldStartupFilters();
      builder.Run(configure);
      var application := builder.Build();
      server.StartAsync(HostingApplication(application), token);

      if server.features == null {
        return Some(NullReference);
      }
      var feature := server.features.addressesFeature;
      if feature != null {
        LogListening(feature.addresses);
      }
      return None;
    }

    /** Lines 82-87 of `StartAsync`: each filter, last-registered first,
        wraps the delegate built so far. */
    method FoldStartupFilters() returns (configure: Configure)
      requires Valid()
      ensures configure == Pipeline()
    {
      configure := options.configureApplication.value;
      var i := |startupFilters|;
      while i > 0
        invariant 0 <= i <= |startupFilters|
        invariant configure == Compose(startupFilters[i..], options.configureApplication.value)
      {
        i := i - 1;
        assert startupFilters[i..][1..] == startupFilters[i + 1..];
        configure := startupFilters[i](configure);
      }
      assert startupFilters[0..] == startupFilters;
    }

    /** Lines 96-103 of `StartAsync`: one "Now listening" entry per address, in order. */
    method LogListening(addresses: seq<string>)
      modifies logger
      ensures logger.entries == old(logger.entries) + ListeningEntries(addresses)
    {
      var k := 0;
      while k < |addresses|
        invariant 0 <= k <= |addresses|
        invariant logger.entries == old(logger.entries) + ListeningEntries(addresses[..k])
      {
        logger.Log(Information, 0, "Now listening on: " + addresses[k], None);
        ListeningEntriesAppend(addresses[..k], [addresses[k]]);
        assert addresses[..k] + [addresses[k]] == addresses[..k + 1];
        k := k + 1;
      }
      assert addresses[..k] == addresses;
    }

    /** `StopAsync(token)`: hands the same token to the server's stop. */
    method StopAsync(token: CancellationToken)
      modifies server
      ensures server.calls == old(server.calls) + [Stop(token)]
    {
      server.StopAsync(token);
    }
  }

  lemma {:induction false} ListeningEntriesAppend(a: seq<string>, b: seq<string>)
    ensures ListeningEntries(a + b) == ListeningEntries(a) + ListeningEntries(b)
  {
    if a == [] {
      assert a + b == b;
    } else {
      assert (a + b)[1..] == a[1..] + b;
      ListeningEntriesAppend(a[1..], b);
    }
  }
}

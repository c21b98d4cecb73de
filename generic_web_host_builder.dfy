/** The web host builder that sits on top of a generic host builder.

    Every fluent method returns the same web host builder. `UseSetting`
    only writes the builder's own settings; each other fluent method
    registers one callback on the underlying host builder, and a server
    set-up extension registers the callbacks its own code registers. The host builder is modelled by
    the callbacks registered on it, in order; the callbacks themselves are
    described by what they were built from. The web-specific context is
    created on first use and cached in the host context's property bag.
    Settings live in the builder's own string map. */
module WebHostBuilder {
  import opened Wrappers
  import opened Settings
  import opened StartupFilters

  /** `HostDefaults.ApplicationKey`. */
  const ApplicationKey: string := "applicationName"

  /** `new WebHostOptions(_config, entryAssemblyName)`, recorded by its
      arguments: the settings at the time and the entry assembly's name. */
  datatype WebHostOptions = WebHostOptions(settings: Configuration, entryAssemblyName: Option<string>)

  /** A hosting environment after `Initialize(contentRootPath, options)`,
      recorded by the arguments it was initialised from. */
  datatype HostingEnvironment = HostingEnvironment(contentRootPath: string, options: WebHostOptions)

  datatype WebHostBuilderContext = WebHostBuilderContext(configuration: Configuration, hostingEnvironment: HostingEnvironment)

  /** Keys of a property bag (keyed by type, or by a private object). */
  datatype PropertyKey =
    | WebHostBuilderContextKey
    | WebHostOptionsKey
    | OtherKey(name: string)

  datatype PropertyValue =
    | ContextValue(context: WebHostBuilderContext)
    | OptionsValue(options: WebHostOptions)
    | OtherValue(id: nat)

  type PropertyBag = map<PropertyKey, PropertyValue>

  /** The exception a failing cast of a property value raises. */
  datatype InvalidCast = InvalidCast(key: PropertyKey)

  /** A type as the service provider sees it: its name (with arity, for a
      generic definition) and its type arguments. */
  datatype TypeRef = TypeRef(name: string, args: seq<TypeRef>)

  const IHostingEnvironmentType: TypeRef := TypeRef("Microsoft.AspNetCore.Hosting.IHostingEnvironment", [])
  const IConfigurationType: TypeRef := TypeRef("Microsoft.Extensions.Configuration.IConfiguration", [])
  const EnumerableDefinition: string := "System.Collections.Generic.IEnumerable`1"

  /** `t.IsGenericType && t.GetGenericTypeDefinition() == typeof(IEnumerable<>)`. */
  predicate IsEnumerable(t: TypeRef)
  {
    t.name == EnumerableDefinition && |t.args| == 1
  }

  /** What the service provider hands out. */
  datatype ServiceObject =
    | Null
    | EnvironmentService(environment: HostingEnvironment)
    | ConfigurationService(configuration: Configuration)
    | EmptyArray(elementType: TypeRef)

  /** The minimal service provider used to construct the startup object: it
      answers for the hosting environment, the configuration and any
      `IEnumerable<T>` (with an empty array), and null for everything else. */
  datatype ServiceProvider = ServiceProvider(context: WebHostBuilderContext) {
    function GetService(serviceType: TypeRef): (r: ServiceObject)
      ensures r.EnvironmentService? <==> serviceType == IHostingEnvironmentType
      ensures r.ConfigurationService? <==> serviceType == IConfigurationType
      ensures r.EmptyArray? <==> IsEnumerable(serviceType)
      ensures r.EnvironmentService? ==> r.environment == context.hostingEnvironment
      ensures r.ConfigurationService? ==> r.configuration == context.configuration
      ensures r.EmptyArray? ==> r.elementType == serviceType.args[0]
    {
      if serviceType == IHostingEnvironmentType then EnvironmentService(context.hostingEnvironment)
      else if serviceType == IConfigurationType then ConfigurationService(context.configuration)
      else if IsEnumerable(serviceType) then EmptyArray(serviceType.args[0])
      else Null
    }
  }

  /** Every type other than the two it knows and `IEnumerable<T>` resolves
      to null. */
  lemma GetServiceNull(provider: ServiceProvider, serviceType: TypeRef)
    ensures provider.GetService(serviceType).Null?
            <==> serviceType != IHostingEnvironmentType && serviceType != IConfigurationType
                 && !IsEnumerable(serviceType)
  {
  }

  /** The context `GetWebHostBuilderContext` creates on a miss: the host
      configuration and an environment initialised from the content root and
      options built from the current settings. */
  function NewContext(configuration: Configuration, contentRootPath: string,
                      settings: Configuration, entryAssemblyName: Option<string>): WebHostBuilderContext
  {
    WebHostBuilderContext(configuration,
      HostingEnvironment(contentRootPath, WebHostOptions(settings, entryAssemblyName)))
  }

  /** The property bag after, and the result of, looking up the cached
      context, where `created` is the context a miss would create. */
  function ContextLookup(bag: PropertyBag, created: WebHostBuilderContext)
    : (r: (PropertyBag, Result<WebHostBuilderContext, InvalidCast>))
    // a miss stores the new context and its options, and returns the new context
    ensures WebHostBuilderContextKey !in bag ==>
              r.0 == bag[WebHostBuilderContextKey := ContextValue(created)]
                        [WebHostOptionsKey := OptionsValue(created.hostingEnvironment.options)]
              && r.1 == Success(created)
    // a hit leaves the bag alone and returns the stored context, if it is one
    ensures WebHostBuilderContextKey in bag ==> r.0 == bag
    ensures WebHostBuilderContextKey in bag ==>
              (r.1.Success? <==> bag[WebHostBuilderContextKey].ContextValue?)
    ensures r.1.Success? ==> r.0[WebHostBuilderContextKey] == ContextValue(r.1.value)
  {
    if WebHostBuilderContextKey !in bag then
      (bag[WebHostBuilderContextKey := ContextValue(created)]
          [WebHostOptionsKey := OptionsValue(created.hostingEnvironment.options)],
       Success(created))
    else match bag[WebHostBuilderContextKey]
      case ContextValue(c) => (bag, Success(c))
      case _ => (bag, Failure(InvalidCast(WebHostBuilderContextKey)))
  }

  /** The context is created at most once: a second lookup, whatever it
      would create, returns the first result and leaves the bag as the first
      lookup left it. */
  lemma ContextLookupIdempotent(bag: PropertyBag, created: WebHostBuilderContext, later: WebHostBuilderContext)
    ensures ContextLookup(ContextLookup(bag, created).0, later) == ContextLookup(bag, created)
  {
  }

  /** The context of the generic host during a build: its configuration,
      content root and property bag. */
  class HostBuilderContext {
    const configuration: Configuration
    const contentRootPath: string
    var properties: PropertyBag

    constructor (configuration: Configuration, contentRootPath: string, properties: PropertyBag)
      ensures this.configuration == configuration && this.contentRootPath == contentRootPath
      ensures this.properties == properties
    {
      this.configuration := configuration;
      this.contentRootPath := contentRootPath;
      this.properties := properties;
    }
  }

  /** Opaque user callbacks, told apart by identity only. */
  datatype ServicesAction = UserServices(id: nat) | HostFilteringServices
  datatype AppConfigurationAction = UserAppConfiguration(id: nat)

  /** The startup class: its name and its assembly's name. */
  datatype StartupType = StartupType(name: string, assemblyName: string)

  /** A host-configuration callback registered on the host builder. */
  datatype HostConfigurationCallback = AddWebHostSettings

  /** An app-configuration callback: the user's delegate, run with the web
      host context. */
  datatype AppConfigurationCallback = WithWebHostContext(action: AppConfigurationAction)

  /** A services callback registered on the host builder. */
  datatype ServicesCallback =
    | WebHostServices                            // the builder's own registrations
    | Plain(action: ServicesAction)              // passed through unchanged
    | WithContext(action: ServicesAction)        // run with the web host context
    | StartupServices(startup: StartupType)      // constructs and applies the startup class
    | SetConfigureApplication(configure: Configure) // sets the configure-application delegate

  /** What a server set-up extension method defined outside this code does
      to the web host builder: the services callbacks it registers, in
      order, and the settings it writes (later writes win). */
  datatype ExtensionEffect = ExtensionEffect(registered: seq<ServicesCallback>, written: Configuration)

  /** `IHostBuilder`: the callbacks registered on it, in order. */
  class HostBuilder {
    var hostConfiguration: seq<HostConfigurationCallback>
    var appConfiguration: seq<AppConfigurationCallback>
    var services: seq<ServicesCallback>

    constructor ()
      ensures hostConfiguration == [] && appConfiguration == [] && services == []
    {
      hostConfiguration, appConfiguration, services := [], [], [];
    }

    method ConfigureHostConfiguration(callback: HostConfigurationCallback)
      modifies this
      ensures hostConfiguration == old(hostConfiguration) + [callback]
      ensures appConfiguration == old(appConfiguration) && services == old(services)
    {
      hostConfiguration := hostConfiguration + [callback];
    }

    method ConfigureAppConfiguration(callback: AppConfigurationCallback)
      modifies this
      ensures appConfiguration == old(appConfiguration) + [callback]
      ensures hostConfiguration == old(hostConfiguration) && services == old(services)
    {
      appConfiguration := appConfiguration + [callback];
    }

    method ConfigureServices(callback: ServicesCallback)
      modifies this
      ensures services == old(services) + [callback]
      ensures hostConfiguration == old(hostConfiguration) && appConfiguration == old(appConfiguration)
    {
      services := services + [callback];
    }
  }

  /** An opaque web host; `Build` never produces one. */
  datatype WebHost = WebHost(id: nat)

  class GenericWebHostBuilder {
    const builder: HostBuilder
    var settings: Configuration
    const entryAssemblyName: Option<string>
    /** Extension methods defined outside this code (server set-up) that were
        called on this builder, by name. */
    var extensions: seq<string>

    /** `new GenericWebHostBuilder(builder)`: settings start from the
        `ASPNETCORE_`-prefixed environment variables (given, prefix removed);
        they are added to the host configuration, and the builder's own
        services are registered. */
    constructor (builder: HostBuilder, environmentSettings: Configuration, entryAssemblyName: Option<string>)
      modifies builder
      ensures this.builder == builder && settings == environmentSettings
      ensures this.entryAssemblyName == entryAssemblyName && extensions == []
      ensures builder.hostConfiguration == old(builder.hostConfiguration) + [AddWebHostSettings]
      ensures builder.services == old(builder.services) + [WebHostServices]
      ensures builder.appConfiguration == old(builder.appConfiguration)
    {
      this.builder := builder;
      settings := environmentSettings;
      this.entryAssemblyName := entryAssemblyName;
      extensions := [];
      new;
      builder.ConfigureHostConfiguration(AddWebHostSettings);
      builder.ConfigureServices(WebHostServices);
    }

    /** `Build()`: not implemented; always null. */
    method Build() returns (r: Option<WebHost>)
      ensures r.None?
    {
      r := None;
    }

    method ConfigureAppConfiguration(action: AppConfigurationAction) returns (r: GenericWebHostBuilder)
      modifies builder
      ensures r == this
      ensures builder.appConfiguration == old(builder.appConfiguration) + [WithWebHostContext(action)]
      ensures builder.hostConfiguration == old(builder.hostConfiguration)
      ensures builder.services == old(builder.services)
    {
      builder.ConfigureAppConfiguration(WithWebHostContext(action));
      r := this;
    }

    /** `ConfigureServices(Action<IServiceCollection>)`. */
    method ConfigureServices(action: ServicesAction) returns (r: GenericWebHostBuilder)
      modifies builder
      ensures r == this
      ensures builder.services == old(builder.services) + [Plain(action)]
      ensures builder.hostConfiguration == old(builder.hostConfiguration)
      ensures builder.appConfiguration == old(builder.appConfiguration)
    {
      builder.ConfigureServices(Plain(action));
      r := this;
    }

    /** `ConfigureServices(Action<WebHostBuilderContext, IServiceCollection>)`. */
    method ConfigureServicesWithContext(action: ServicesAction) returns (r: GenericWebHostBuilder)
      modifies builder
      ensures r == this
      ensures builder.services == old(builder.services) + [WithContext(action)]
      ensures builder.hostConfiguration == old(builder.hostConfiguration)
      ensures builder.appConfiguration == old(builder.appConfiguration)
    {
      builder.ConfigureServices(WithContext(action));
      r := this;
    }

    /** `UseStartup<TStartup>()`: the startup assembly's name is written
        under the application key at once, before any callback runs; the
        startup work itself is registered as one services callback. */
    method UseStartup(startup: StartupType) returns (r: GenericWebHostBuilder)
      modifies this, builder
      ensures r == this
      ensures settings == old(settings)[ApplicationKey := startup.assemblyName]
      ensures builder.services == old(builder.services) + [StartupServices(startup)]
      ensures builder.hostConfiguration == old(builder.hostConfiguration)
      ensures builder.appConfiguration == old(builder.appConfiguration)
      ensures extensions == old(extensions)
    {
      settings := settings[ApplicationKey := startup.assemblyName];
      builder.ConfigureServices(StartupServices(startup));
      r := this;
    }

    /** `Configure(Action<IApplicationBuilder>)`. */
    method Configure(configure: Configure) returns (r: GenericWebHostBuilder)
      modifies builder
      ensures r == this
      ensures builder.services == old(builder.services) + [SetConfigureApplication(configure)]
      ensures builder.hostConfiguration == old(builder.hostConfiguration)
      ensures builder.appConfiguration == old(builder.appConfiguration)
    {
      builder.ConfigureServices(SetConfigureApplication(configure));
      r := this;
    }

    /** A server set-up extension method (`UseKestrel`, `UseIIS`, ...)
        called on this builder. Its body is defined outside this code, so
        what it does is given as `effect`, with no constraint on it: its
        services callbacks are appended in order and its settings written. */
    method UseExtension(name: string, effect: ExtensionEffect) returns (r: GenericWebHostBuilder)
      modifies this, builder
      ensures r == this
      ensures extensions == old(extensions) + [name]
      ensures settings == old(settings) + effect.written
      ensures forall k :: k !in effect.written ==> GetSetting(k) == old(GetSetting(k))
      ensures builder.services == old(builder.services) + effect.registered
      ensures builder.hostConfiguration == old(builder.hostConfiguration)
      ensures builder.appConfiguration == old(builder.appConfiguration)
    {
      extensions := extensions + [name];
      settings := settings + effect.written;
      builder.services := builder.services + effect.registered;
      r := this;
    }

    /** `GetWebHostBuilderContext(context)`: the cached context, created and
        stored (with its options) on first use. */
    method GetWebHostBuilderContext(context: HostBuilderContext) returns (r: Result<WebHostBuilderContext, InvalidCast>)
      modifies context
      ensures (context.properties, r)
              == ContextLookup(old(context.properties),
                               NewContext(context.configuration, context.contentRootPath, settings, entryAssemblyName))
    {
      if WebHostBuilderContextKey !in context.properties {
        var options := WebHostOptions(settings, entryAssemblyName);
        var environment := HostingEnvironment(context.contentRootPath, options);
        var created := WebHostBuilderContext(context.configuration, environment);
        context.properties := context.properties[WebHostBuilderContextKey := ContextValue(created)];
        context.properties := context.properties[WebHostOptionsKey := OptionsValue(options)];
        return Success(created);
      }
      match context.properties[WebHostBuilderContextKey]
      case ContextValue(c) => r := Success(c);
      case _ => r := Failure(InvalidCast(WebHostBuilderContextKey));
    }

    /** `GetSetting(key)`: the setting, or null. */
    function GetSetting(key: string): (r: Option<string>)
      reads this
      ensures r.Some? <==> key in settings
      ensures r.Some? ==> r.value == settings[key]
    {
      Lookup(settings, key)
    }

    /** `UseSetting(key, value)`: afterwards `key` reads `value` (null
        included) and every other key reads as before. */
    method UseSetting(key: string, value: Option<string>) returns (r: GenericWebHostBuilder)
      modifies this
      ensures r == this
      ensures GetSetting(key) == value
      ensures forall k :: k != key ==> GetSetting(k) == old(GetSetting(k))
      ensures settings == Assign(old(settings), key, value) && extensions == old(extensions)
    {
      settings := Assign(settings, key, value);
      r := this;
    }
  }
}

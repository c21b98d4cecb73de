/** The extension methods that attach a web host to a generic host builder.

    `ConfigureWebHost` wraps the host builder in a web host builder, runs the
    caller's configuration on it once and returns the host builder it was
    given. `ConfigureWebHostDefaults` does the same after the defaults: the
    server set-up calls and the host-filtering services, whose post-configure
    step falls back to the `AllowedHosts` setting, or to `*`, when no allowed
    hosts are configured. */
module HostBuilderExtensions {
  import opened Wrappers
  import opened Settings
  import Strings
  import opened StartupFilters
  import opened WebHostBuilder

  /** Configuration key of the allowed-hosts list. */
  const AllowedHostsKey: string := "AllowedHosts"

  /** The host list that allows every host. */
  const AllowAll: seq<string> := ["*"]

  /** The allowed hosts derived from configuration: the non-empty
      `;`-separated pieces of the `AllowedHosts` setting, or `*` when the
      setting is missing or has no such piece. */
  function FallbackHosts(configuration: Configuration): (r: seq<string>)
    ensures r != [] && Strings.NoEmpty(r)
    ensures AllowedHostsKey !in configuration ==> r == AllowAll
    ensures AllowedHostsKey in configuration ==>
              var hosts := Strings.Split(configuration[AllowedHostsKey], ';');
              r == if hosts != [] then hosts else AllowAll
  {
    match Lookup(configuration, AllowedHostsKey)
    case None => AllowAll
    case Some(value) =>
      var hosts := Strings.Split(value, ';');
      if |hosts| > 0 then hosts else AllowAll
  }

  /** `HostFilteringOptions.AllowedHosts` after the post-configure step:
      a configured, non-empty list is kept; a null or empty one is replaced
      by the fallback. */
  function PostConfiguredHosts(current: Option<seq<string>>, configuration: Configuration): (r: seq<string>)
    ensures current.Some? && current.value != [] ==> r == current.value
    ensures current.None? || current.value == [] ==> r == FallbackHosts(configuration)
    ensures r != []
  {
    if current.None? || |current.value| == 0 then FallbackHosts(configuration) else current.value
  }

  /** After the fallback step the list is never empty, and it holds no empty
      host unless the configured list already did. */
  lemma PostConfiguredNoEmptyHost(current: Option<seq<string>>, configuration: Configuration)
    requires current.Some? ==> Strings.NoEmpty(current.value)
    ensures PostConfiguredHosts(current, configuration) != []
    ensures Strings.NoEmpty(PostConfiguredHosts(current, configuration))
  {
  }

  /** Running the post-configure step twice is running it once. */
  lemma PostConfigureIdempotent(current: Option<seq<string>>, configuration: Configuration)
    ensures PostConfiguredHosts(Some(PostConfiguredHosts(current, configuration)), configuration)
            == PostConfiguredHosts(current, configuration)
  {
  }

  /** A setting made of separators only, such as `;;`, falls back to `*`. */
  lemma SeparatorsOnlyAllowAll(configuration: Configuration)
    requires AllowedHostsKey in configuration
    requires forall i :: 0 <= i < |configuration[AllowedHostsKey]| ==> configuration[AllowedHostsKey][i] == ';'
    ensures FallbackHosts(configuration) == AllowAll
  {
    Strings.SplitEmptyIff(configuration[AllowedHostsKey], ';');
  }

  /** Hosts written as a `;`-joined setting come back as exactly those hosts,
      in order. */
  lemma FallbackFromJoined(configuration: Configuration, hosts: seq<string>)
    requires hosts != [] && Strings.NoEmpty(hosts) && Strings.SeparatorFree(hosts, ';')
    requires Lookup(configuration, AllowedHostsKey) == Some(Strings.Join(hosts, ';'))
    ensures FallbackHosts(configuration) == hosts
  {
    Strings.SplitJoin(hosts, ';');
  }

  /** `HostFilteringOptions`: the allowed-hosts list, possibly null. */
  class HostFilteringOptions {
    var allowedHosts: Option<seq<string>>

    constructor (allowedHosts: Option<seq<string>>)
      ensures this.allowedHosts == allowedHosts
    {
      this.allowedHosts := allowedHosts;
    }
  }

  /** The post-configure delegate of `ConfigureWebHostDefaults`, run with
      the host context's configuration. */
  method PostConfigureHostFiltering(options: HostFilteringOptions, configuration: Configuration)
    modifies options
    ensures options.allowedHosts == Some(PostConfiguredHosts(old(options.allowedHosts), configuration))
    ensures old(options.allowedHosts).Some? && old(options.allowedHosts).value != [] ==>
              options.allowedHosts == old(options.allowedHosts)
  {
    if options.allowedHosts.None? || |options.allowedHosts.value| == 0 {
      var hosts: Option<seq<string>> := match Lookup(configuration, AllowedHostsKey)
        case None => None
        case Some(value) => Some(Strings.Split(value, ';'));
      options.allowedHosts := if hosts.Some? && |hosts.value| > 0 then hosts else Some(AllowAll);
    }
  }

  /** One call the caller's configuration makes on the web host builder. */
  datatype WebHostBuilderCall =
    | CallConfigureAppConfiguration(appAction: AppConfigurationAction)
    | CallConfigureServices(servicesAction: ServicesAction)
    | CallConfigureServicesWithContext(contextAction: ServicesAction)
    | CallUseStartup(startup: StartupType)
    | CallConfigure(configure: Configure)
    | CallUseSetting(key: string, value: Option<string>)
    | CallExtension(name: string, effect: ExtensionEffect)

  /** The services callbacks a sequence of calls registers, in order. */
  function ServicesRegistered(calls: seq<WebHostBuilderCall>): seq<ServicesCallback>
  {
    if calls == [] then []
    else
      var rest := ServicesRegistered(calls[1..]);
      match calls[0]
      case CallConfigureServices(a) => [Plain(a)] + rest
      case CallConfigureServicesWithContext(a) => [WithContext(a)] + rest
      case CallUseStartup(s) => [StartupServices(s)] + rest
      case CallConfigure(c) => [SetConfigureApplication(c)] + rest
      case CallExtension(_, effect) => effect.registered + rest
      case _ => rest
  }

  /** The app-configuration callbacks a sequence of calls registers, in order. */
  function AppConfigurationRegistered(calls: seq<WebHostBuilderCall>): seq<AppConfigurationCallback>
  {
    if calls == [] then []
    else
      var rest := AppConfigurationRegistered(calls[1..]);
      match calls[0]
      case CallConfigureAppConfiguration(a) => [WithWebHostContext(a)] + rest
      case _ => rest
  }

  /** The names of the server set-up extensions a sequence of calls makes,
      in order. */
  function ExtensionsCalled(calls: seq<WebHostBuilderCall>): seq<string>
  {
    if calls == [] then []
    else
      var rest := ExtensionsCalled(calls[1..]);
      match calls[0]
      case CallExtension(name, _) => [name] + rest
      case _ => rest
  }

  /** The settings after one call: `UseSetting` assigns its key,
      `UseStartup` the application key, an extension writes its settings,
      and every other call leaves them alone. */
  function SettingsStep(settings: Configuration, call: WebHostBuilderCall): Configuration
  {
    match call
    case CallUseSetting(k, v) => Assign(settings, k, v)
    case CallUseStartup(s) => settings[ApplicationKey := s.assemblyName]
    case CallExtension(_, effect) => settings + effect.written
    case _ => settings
  }

  /** The settings after a sequence of calls. */
  function SettingsAfter(settings: Configuration, calls: seq<WebHostBuilderCall>): Configuration
    decreases |calls|
  {
    if calls == [] then settings
    else SettingsAfter(SettingsStep(settings, calls[0]), calls[1..])
  }

  lemma {:induction false} ServicesRegisteredAppend(a: seq<WebHostBuilderCall>, b: seq<WebHostBuilderCall>)
    ensures ServicesRegistered(a + b) == ServicesRegistered(a) + ServicesRegistered(b)
  {
    if a == [] {
      assert a + b == b;
    } else {
      assert (a + b)[0] == a[0] && (a + b)[1..] == a[1..] + b;
      ServicesRegisteredAppend(a[1..], b);
    }
  }

  lemma {:induction false} AppConfigurationRegisteredAppend(a: seq<WebHostBuilderCall>, b: seq<WebHostBuilderCall>)
    ensures AppConfigurationRegistered(a + b) == AppConfigurationRegistered(a) + AppConfigurationRegistered(b)
  {
    if a == [] {
      assert a + b == b;
    } else {
      assert (a + b)[0] == a[0] && (a + b)[1..] == a[1..] + b;
      AppConfigurationRegisteredAppend(a[1..], b);
    }
  }

  lemma {:induction false} ExtensionsCalledAppend(a: seq<WebHostBuilderCall>, b: seq<WebHostBuilderCall>)
    ensures ExtensionsCalled(a + b) == ExtensionsCalled(a) + ExtensionsCalled(b)
  {
    if a == [] {
      assert a + b == b;
    } else {
      assert (a + b)[0] == a[0] && (a + b)[1..] == a[1..] + b;
      ExtensionsCalledAppend(a[1..], b);
    }
  }

  lemma {:induction false} SettingsAfterAppend(s: Configuration, a: seq<WebHostBuilderCall>, b: seq<WebHostBuilderCall>)
    ensures SettingsAfter(s, a + b) == SettingsAfter(SettingsAfter(s, a), b)
    decreases |a|
  {
    if a == [] {
      assert a + b == b;
    } else {
      assert (a + b)[0] == a[0] && (a + b)[1..] == a[1..] + b;
      SettingsAfterAppend(SettingsStep(s, a[0]), a[1..], b);
    }
  }

  /** Performs one call on the web host builder. */
  method Perform(web: GenericWebHostBuilder, call: WebHostBuilderCall)
    modifies web, web.builder
    ensures web.builder.services == old(web.builder.services) + ServicesRegistered([call])
    ensures web.builder.appConfiguration == old(web.builder.appConfiguration) + AppConfigurationRegistered([call])
    ensures web.builder.hostConfiguration == old(web.builder.hostConfiguration)
    ensures web.settings == SettingsAfter(old(web.settings), [call])
    ensures web.extensions == old(web.extensions) + ExtensionsCalled([call])
  {
    assert [call][1..] == [];
    var r: GenericWebHostBuilder;
    match call
    case CallConfigureAppConfiguration(a) => r := web.ConfigureAppConfiguration(a);
    case CallConfigureServices(a) => r := web.ConfigureServices(a);
    case CallConfigureServicesWithContext(a) => r := web.ConfigureServicesWithContext(a);
    case CallUseStartup(s) => r := web.UseStartup(s);
    case CallConfigure(c) => r := web.Configure(c);
    case CallUseSetting(k, v) => r := web.UseSetting(k, v);
    case CallExtension(n, effect) => r := web.UseExtension(n, effect);
  }

  /** `ConfigureWebHost(builder, configure)`: a new web host builder over
      `builder` (registering its own callbacks), the caller's configuration
      run on it exactly once, and the same host builder returned. */
  method ConfigureWebHost(builder: HostBuilder, configure: seq<WebHostBuilderCall>,
                          environmentSettings: Configuration, entryAssemblyName: Option<string>)
    returns (r: HostBuilder, web: GenericWebHostBuilder)
    modifies builder
    ensures r == builder && fresh(web) && web.builder == builder
    ensures builder.hostConfiguration == old(builder.hostConfiguration) + [AddWebHostSettings]
    ensures builder.services == old(builder.services) + [WebHostServices] + ServicesRegistered(configure)
    ensures builder.appConfiguration == old(builder.appConfiguration) + AppConfigurationRegistered(configure)
    ensures web.settings == SettingsAfter(environmentSettings, configure)
    ensures web.extensions == ExtensionsCalled(configure)
  {
    web := new GenericWebHostBuilder(builder, environmentSettings, entryAssemblyName);
    ghost var services0 := builder.services;
    ghost var appConfiguration0 := builder.appConfiguration;
    var i := 0;
    while i < |configure|
      invariant 0 <= i <= |configure|
      invariant web.builder == builder
      invariant builder.services == services0 + ServicesRegistered(configure[..i])
      invariant builder.appConfiguration == appConfiguration0 + AppConfigurationRegistered(configure[..i])
      invariant builder.hostConfiguration == old(builder.hostConfiguration) + [AddWebHostSettings]
      invariant web.settings == SettingsAfter(environmentSettings, configure[..i])
      invariant web.extensions == ExtensionsCalled(configure[..i])
    {
      Perform(web, configure[i]);
      assert configure[..i + 1] == configure[..i] + [configure[i]];
      ServicesRegisteredAppend(configure[..i], [configure[i]]);
      AppConfigurationRegisteredAppend(configure[..i], [configure[i]]);
      SettingsAfterAppend(environmentSettings, configure[..i], [configure[i]]);
      ExtensionsCalledAppend(configure[..i], [configure[i]]);
      i := i + 1;
    }
    assert configure[..i] == configure;
    r := builder;
  }

  /** The calls `ConfigureWebHostDefaults` makes before the caller's: the
      server set-up extensions, each doing what its own code does, then the
      host-filtering services (the allowed-hosts post-configure step and
      `HostFilteringStartupFilter`). */
  function DefaultCalls(kestrel: ExtensionEffect, iis: ExtensionEffect, iisIntegration: ExtensionEffect)
    : seq<WebHostBuilderCall>
  {
    [ CallExtension("UseKestrel", kestrel),
      CallExtension("UseIIS", iis),
      CallExtension("UseIISIntegration", iisIntegration),
      CallConfigureServicesWithContext(HostFilteringServices) ]
  }

  /** `ConfigureWebHostDefaults(builder, configure)`: whatever the server
      set-up extensions do (`kestrel`, `iis`, `iisIntegration`), the
      host-filtering services are registered after their callbacks and
      before anything the caller's configuration registers; the caller's
      calls see the settings the extensions wrote; the same host builder is
      returned. */
  method ConfigureWebHostDefaults(builder: HostBuilder, configure: seq<WebHostBuilderCall>,
                                  environmentSettings: Configuration, entryAssemblyName: Option<string>,
                                  kestrel: ExtensionEffect, iis: ExtensionEffect, iisIntegration: ExtensionEffect)
    returns (r: HostBuilder, web: GenericWebHostBuilder)
    modifies builder
    ensures r == builder && fresh(web) && web.builder == builder
    ensures builder.services
            == old(builder.services) + [WebHostServices] + kestrel.registered + iis.registered
               + iisIntegration.registered + [WithContext(HostFilteringServices)] + ServicesRegistered(configure)
    ensures builder.appConfiguration == old(builder.appConfiguration) + AppConfigurationRegistered(configure)
    ensures builder.hostConfiguration == old(builder.hostConfiguration) + [AddWebHostSettings]
    ensures web.settings
            == SettingsAfter(environmentSettings + kestrel.written + iis.written + iisIntegration.written, configure)
    ensures web.extensions == ["UseKestrel", "UseIIS", "UseIISIntegration"] + ExtensionsCalled(configure)
  {
    ghost var services0 := builder.services;
    var defaults := DefaultCalls(kestrel, iis, iisIntegration);
    DefaultsThenConfigure(kestrel, iis, iisIntegration, configure, environmentSettings);
    r, web := ConfigureWebHost(builder, defaults + configure, environmentSettings, entryAssemblyName);
    assert builder.services == services0 + [WebHostServices] + ServicesRegistered(defaults + configure);
  }

  /** The default calls followed by the caller's: what they register and do
      to the settings, in terms of the caller's calls alone. */
  lemma DefaultsThenConfigure(kestrel: ExtensionEffect, iis: ExtensionEffect, iisIntegration: ExtensionEffect,
                              configure: seq<WebHostBuilderCall>, settings: Configuration)
    ensures ServicesRegistered(DefaultCalls(kestrel, iis, iisIntegration) + configure)
            == kestrel.registered + iis.registered + iisIntegration.registered
               + [WithContext(HostFilteringServices)] + ServicesRegistered(configure)
    ensures AppConfigurationRegistered(DefaultCalls(kestrel, iis, iisIntegration) + configure)
            == AppConfigurationRegistered(configure)
    ensures ExtensionsCalled(DefaultCalls(kestrel, iis, iisIntegration) + configure)
            == ["UseKestrel", "UseIIS", "UseIISIntegration"] + ExtensionsCalled(configure)
    ensures SettingsAfter(settings, DefaultCalls(kestrel, iis, iisIntegration) + configure)
            == SettingsAfter(settings + kestrel.written + iis.written + iisIntegration.written, configure)
  {
    var defaults := DefaultCalls(kestrel, iis, iisIntegration);
    ServicesRegisteredAppend(defaults, configure);
    AppConfigurationRegisteredAppend(defaults, configure);
    SettingsAfterAppend(settings, defaults, configure);
    ExtensionsCalledAppend(defaults, configure);
    DefaultCallsRegister(kestrel, iis, iisIntegration, settings);
  }

  /** What the default calls do: register the extensions' callbacks and
      then host filtering, register no app-configuration callback, call the
      three extensions in order, and write only the extensions' settings. */
  lemma DefaultCallsRegister(kestrel: ExtensionEffect, iis: ExtensionEffect, iisIntegration: ExtensionEffect,
                             settings: Configuration)
    ensures ServicesRegistered(DefaultCalls(kestrel, iis, iisIntegration))
            == kestrel.registered + iis.registered + iisIntegration.registered + [WithContext(HostFilteringServices)]
    ensures AppConfigurationRegistered(DefaultCalls(kestrel, iis, iisIntegration)) == []
    ensures ExtensionsCalled(DefaultCalls(kestrel, iis, iisIntegration)) == ["UseKestrel", "UseIIS", "UseIISIntegration"]
    ensures SettingsAfter(settings, DefaultCalls(kestrel, iis, iisIntegration))
            == settings + kestrel.written + iis.written + iisIntegration.written
  {
    var d := DefaultCalls(kestrel, iis, iisIntegration);
    var last := [CallConfigureServicesWithContext(HostFilteringServices)];
    assert d[3..] == last && last[1..] == [];
    assert d[2..][1..] == d[3..] && d[1..][1..] == d[2..];
    assert ServicesRegistered(last) == [WithContext(HostFilteringServices)];
    assert ServicesRegistered(d[2..]) == iisIntegration.registered + [WithContext(HostFilteringServices)];
    assert ServicesRegistered(d[1..]) == iis.registered + iisIntegration.registered + [WithContext(HostFilteringServices)];
    assert AppConfigurationRegistered(d[2..]) == [];
    assert ExtensionsCalled(d[2..]) == ["UseIISIntegration"];
    assert ExtensionsCalled(d[1..]) == ["UseIIS", "UseIISIntegration"];
    var s3 := settings + kestrel.written + iis.written + iisIntegration.written;
    assert SettingsAfter(s3, last) == s3;
    assert SettingsAfter(settings + kestrel.written + iis.written, d[2..]) == s3;
    assert SettingsAfter(settings + kestrel.written, d[1..]) == s3;
  }
}

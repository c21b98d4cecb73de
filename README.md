# Generic-host web hosting: a verified model of its deterministic rules

This project models the part of the generic-host web bootstrapper that can be
stated exactly. The rest of that code is glue between the generic host,
dependency injection, reflection and the HTTP servers. The model covers:

- **The web host service** (`WebHosting`, from `WebHostedService.cs`).
  - Construction fails on null options, on an unset configure-application
    delegate, or on the first null dependency, in the order the constructor
    checks them.
  - `StartAsync` fills an empty, writable server address list from the
    server-URLs setting. It then folds the startup filters in reverse around
    the configure-application delegate, runs the result once on a fresh
    application builder and builds it. Next it starts the server with that
    pipeline, and last it logs one "Now listening on" entry per server
    address.
  - `StopAsync` forwards its token to the server.
- **Startup filters** (`StartupFilters`, from `HostFilteringStartupFilter.cs`
  and the fold in `WebHostedService.cs`).
  - A configure delegate is a function on the middleware list of the
    application builder. A filter maps a configure delegate to another one.
  - The host-filtering filter registers host filtering and then runs `next`
    on the same builder.
- **The web host builder** (`WebHostBuilder`, from `GenericWebHostBuilder.cs`).
  - The web host context is created on first use and cached in the host
    context's property bag.
  - The minimal service provider does a three-way dispatch.
  - Settings are a string map. Setting a key to null removes it, so that
    it reads back as null.
  - Every fluent method returns the same web host builder. `UseSetting`
    only writes the builder's own settings. Each other fluent method
    registers one callback on the host builder. A server set-up extension
    (`UseKestrel`, `UseIIS`, `UseIISIntegration`) registers whatever
    services callbacks its own code registers and writes whatever settings
    it writes; both are given as a parameter.
- **The extension methods** (`HostBuilderExtensions`, from
  `GenericHostBuilderExtensions.cs`).
  - `ConfigureWebHost` runs the caller's configuration once and returns the
    host builder it was given.
  - `ConfigureWebHostDefaults` registers the host-filtering services before
    the caller's configuration runs.
  - The `AllowedHosts` post-configure step falls back to the `;`-split
    setting, or to `["*"]`.
- **Startup-error logging** (`HostingLogger`, from
  `HostingLoggerExtensions.cs`). For a type-load exception, the loader
  messages are appended to the message, one per line.

Shared modules: `Strings` models `String.Split` with and without
`RemoveEmptyEntries`, plus the join it inverts. `Settings` holds the
configuration map. `Wrappers` holds `Option` and `Result`.

Behaviour of the code worth knowing:

- The filters are folded in reverse registration order
  (`WebHostedService.cs:84-87`), so the **first**-registered filter runs
  outermost.
- Server addresses keep duplicates and order. The result is a list, not a set.
- A missing configure-application delegate fails in the service's
  constructor (`WebHostedService.cs:34-37`), before any start.
- `StartAsync` reads the feature collection with a null check at line 65 but
  without one at line 96. A server without a feature collection is therefore
  started, and then the address lookup throws. The model returns
  `NullReference` after the start call in that case.

## Model

| member | source | states |
|---|---|---|
| `WebHosting.ConstructionError` | SampleApplication/Infrastructure/WebHostedService.cs:32-46 | Null options give ArgumentNull("options"). Options without a configure delegate give ArgumentException("ConfigureApplication"). Otherwise the error names the first null dependency in checking order. There is no error exactly when everything is present. |
| `WebHosting.FirstNull` | SampleApplication/Infrastructure/WebHostedService.cs:39-46 | The result is ArgumentNull of the first absent dependency: every earlier one is present. It is None exactly when all are present. |
| `WebHosting.WebHostService.Create` | SampleApplication/Infrastructure/WebHostedService.cs:22-47 | It fails exactly with the error `ConstructionError` reports, and then no service exists. Otherwise it returns a fresh service that holds exactly the arguments and has its configure delegate. |
| `WebHosting.ParseBoolCases` | SampleApplication/Infrastructure/WebHostedService.cs:72 | The prefer-hosting-URLs flag reads true for `true` in any letter case and for `1`. It reads false for a missing key, `false`, `0`, the empty string, `11`, a padded ` true` and `trux`. |
| `WebHosting.WebHostService.constructor` | SampleApplication/Infrastructure/WebHostedService.cs:22-47 | A service built with a configure-application delegate holds exactly the given options and dependencies. |
| `WebHosting.ServerUrls` | SampleApplication/Infrastructure/WebHostedService.cs:69-70 | The server-URLs setting is used only when it is present and non-empty. |
| `WebHosting.PopulateAddresses` | SampleApplication/Infrastructure/WebHostedService.cs:65-79 | Only a writable, empty list with URLs configured changes; anything else is left exactly as it was, prefer-hosting flag included. A filled list is the non-empty `;`-pieces of the setting, in order, and the flag is parsed from configuration. No added address is empty or contains `;`. |
| `WebHosting.PopulateIdempotent` | SampleApplication/Infrastructure/WebHostedService.cs:65-79 | Populating twice gives the same feature state as populating once. |
| `WebHosting.PopulateKeepsContent` | SampleApplication/Infrastructure/WebHostedService.cs:74-77 | The filled addresses, concatenated, are the setting with its separators removed: nothing is trimmed or reordered. |
| `WebHosting.PopulateFromJoined` | SampleApplication/Infrastructure/WebHostedService.cs:69-77 | A setting that joins non-empty, `;`-free URLs gives exactly those URLs back, duplicates kept. |
| `WebHosting.PopulateTwoUrls` | SampleApplication/Infrastructure/WebHostedService.cs:69-77 | `http://a;http://b` on an empty list gives exactly `[http://a, http://b]`. |
| `WebHosting.AddressesFeature.Add` | SampleApplication/Infrastructure/WebHostedService.cs:76 | The address is appended at the end of the list. The read-only and prefer-hosting flags are unchanged. |
| `WebHosting.WebHostService.PopulateServerAddresses` | SampleApplication/Infrastructure/WebHostedService.cs:65-79 | The in-place `Add` loop leaves the feature in the state `PopulateAddresses` gives. |
| `WebHosting.WebHostService.FoldStartupFilters` | SampleApplication/Infrastructure/WebHostedService.cs:82-87 | The loop over the reversed filters yields `Compose(filters, configureApplication)`. |
| `WebHosting.WebHostService.StartAsync` | SampleApplication/Infrastructure/WebHostedService.cs:61-104 | The addresses are populated first. The server gets exactly one start call, with the pipeline built from the composed delegate run once on an empty builder, and with the caller's token. Then one "Now listening" entry is logged per address the server reports, in order. A missing feature collection raises NullReference after the start, with nothing logged. |
| `WebHosting.WebHostService.StopAsync` | SampleApplication/Infrastructure/WebHostedService.cs:106-109 | The only effect is one stop call on the server, carrying the same token. |
| `WebHosting.ListeningEntries` | SampleApplication/Infrastructure/WebHostedService.cs:96-103 | There is one Information entry per address, and entry i names address i. |
| `WebHosting.WebHostService.LogListening` | SampleApplication/Infrastructure/WebHostedService.cs:96-103 | The logging loop appends exactly `ListeningEntries(addresses)` to the logger. |
| `StartupFilters.HostFilteringConfigure` | SampleApplication/Infrastructure/HostFilteringStartupFilter.cs:9-16 | The returned delegate runs `next` exactly on the given builder with the host-filtering middleware appended, so host filtering is registered before anything `next` registers. |
| `StartupFilters.Compose` | SampleApplication/Infrastructure/WebHostedService.cs:82-87 | With no filters the composed delegate is the configure delegate itself. Otherwise the last-registered filter wraps the configure delegate first and the earlier filters wrap the result, which is the fold over the reversed list. |
| `StartupFilters.HostFilteringRegistersFirst` | SampleApplication/Infrastructure/HostFilteringStartupFilter.cs:9-16 | For every `next` and builder, the wrapper's delegate is `next` run on the builder with host filtering already registered. |
| `StartupFilters.HostFilteringThenApplication` | SampleApplication/Infrastructure/HostFilteringStartupFilter.cs:11-15 | With the host-filtering filter as the only filter, the application's configure delegate runs on a builder that already has host filtering. |
| `StartupFilters.ComposeOrder` | SampleApplication/Infrastructure/WebHostedService.cs:82-89 | When each filter registers one middleware and then runs `next`, the composed delegate registers the filters' middleware in registration order (filter 1 outermost) and runs the configure delegate last. |
| `StartupFilters.ComposeAppend` | SampleApplication/Infrastructure/WebHostedService.cs:84-87 | Folding a concatenation is folding the front part around the fold of the back part. |
| `StartupFilters.FilterThenUser` | SampleApplication/Infrastructure/WebHostedService.cs:82-89 | One marker filter plus a configure delegate that adds a user marker record `[filter, user]`. |
| `HostingLogger.ApplicationError` | SampleApplication/Infrastructure/HostingLoggerExtensions.cs:26-41 | The appending loop writes exactly one Critical entry. That entry carries the event id, the exception and the flattened message. |
| `HostingLogger.HostingStartupAssemblyError` | SampleApplication/Infrastructure/HostingLoggerExtensions.cs:11-17 | It writes one Critical entry with event 0 and "Hosting startup assembly exception", flattened. |
| `HostingLogger.ApplicationStartupError` | SampleApplication/Infrastructure/HostingLoggerExtensions.cs:18-24 | It writes one Critical entry with event 0 and "Application startup exception", flattened. |
| `HostingLogger.AppendLoaderMessages` | SampleApplication/Infrastructure/HostingLoggerExtensions.cs:31-34 | The message is a prefix of the result, and each loader exception adds at least one character, its line break. |
| `HostingLogger.FlattenedMessage` | SampleApplication/Infrastructure/HostingLoggerExtensions.cs:28-35 | The original message is always a prefix of the logged one. For any other exception, the logged message is the given one unchanged. For a type-load exception, the logged message is longer by at least one character per loader exception. |
| `HostingLogger.AppendLoaderMessagesJoin` | SampleApplication/Infrastructure/HostingLoggerExtensions.cs:31-34 | The flattened message is the original followed by each loader message, in order, joined by new lines. |
| `HostingLogger.FlattenedLines` | SampleApplication/Infrastructure/HostingLoggerExtensions.cs:31-34 | When no message contains a new line, splitting the flattened message on new lines gives the original message and then each loader message. So exactly one separator is added per loader exception. |
| `HostBuilderExtensions.FallbackHosts` | SampleApplication/Infrastructure/GenericHostBuilderExtensions.cs:32-34 | The result is never empty and holds no empty host. A missing setting gives `["*"]`. Otherwise the result is the non-empty `;`-pieces in order, or `["*"]` when there are none. |
| `HostBuilderExtensions.PostConfiguredHosts` | SampleApplication/Infrastructure/GenericHostBuilderExtensions.cs:29-35 | A non-null, non-empty list is kept. A null or empty list becomes the fallback. The result is never empty. |
| `HostBuilderExtensions.PostConfiguredNoEmptyHost` | SampleApplication/Infrastructure/GenericHostBuilderExtensions.cs:29-35 | After the step, the list is non-empty and contains no empty string, unless the configured list already did. |
| `HostBuilderExtensions.PostConfigureIdempotent` | SampleApplication/Infrastructure/GenericHostBuilderExtensions.cs:29-35 | Applying the step to its own result changes nothing. |
| `HostBuilderExtensions.SeparatorsOnlyAllowAll` | SampleApplication/Infrastructure/GenericHostBuilderExtensions.cs:32-34 | A setting made only of `;`, such as `;;`, gives exactly `["*"]`. |
| `HostBuilderExtensions.FallbackFromJoined` | SampleApplication/Infrastructure/GenericHostBuilderExtensions.cs:32-34 | A setting that joins non-empty, `;`-free hosts gives exactly those hosts back. |
| `HostBuilderExtensions.PostConfigureHostFiltering` | SampleApplication/Infrastructure/GenericHostBuilderExtensions.cs:27-36 | The in-place assignment leaves `AllowedHosts` equal to `PostConfiguredHosts` of the old value. It is untouched when already non-empty. |
| `HostBuilderExtensions.ConfigureWebHost` | SampleApplication/Infrastructure/GenericHostBuilderExtensions.cs:48-53 | It returns the same host builder. A fresh web host builder registers its own callbacks, and then the caller's configuration runs once: exactly its registrations, extension calls and settings writes are added, in order. |
| `HostBuilderExtensions.ConfigureWebHostDefaults` | SampleApplication/Infrastructure/GenericHostBuilderExtensions.cs:13-46 | It returns the same host builder. The services callbacks come in this order: the web host builder's own, whatever `UseKestrel`, `UseIIS` and `UseIISIntegration` register, the host-filtering services, and then every callback of the caller's configuration. The three extensions are called in that order, before the caller's own extension calls. The caller's calls start from the environment settings overwritten by whatever settings the three extensions write, in that order. |
| `HostBuilderExtensions.DefaultsThenConfigure` | SampleApplication/Infrastructure/GenericHostBuilderExtensions.cs:15-44 | Running the default calls and then the caller's registers the extensions' callbacks, then host filtering, then the caller's callbacks. It adds only the caller's app-configuration callbacks. The settings end as the caller's calls leave them when run on the settings the extensions wrote. |
| `HostBuilderExtensions.DefaultCallsRegister` | SampleApplication/Infrastructure/GenericHostBuilderExtensions.cs:17-42 | The default calls register the three extensions' callbacks and then host filtering, register no app-configuration callback, and call the three extensions in source order. The only settings they write are the extensions' own, later ones winning. |
| `WebHostBuilder.ServiceProvider.GetService` | SampleApplication/Infrastructure/GenericWebHostBuilder.cs:223-241 | `IHostingEnvironment` gives the context's environment, and only that type does. `IConfiguration` gives the context's configuration, and only that type does. `IEnumerable<T>` gives an empty array of `T`, and only such types do. |
| `WebHostBuilder.GetServiceNull` | SampleApplication/Infrastructure/GenericWebHostBuilder.cs:235-240 | Null is returned exactly for the types not covered above. |
| `WebHostBuilder.ContextLookup` | SampleApplication/Infrastructure/GenericWebHostBuilder.cs:181-200 | On a miss, the new context and its options are stored and the new context is returned. On a hit, the bag is unchanged and the stored context is returned, or an invalid cast is raised. A successful result is what the bag holds. |
| `WebHostBuilder.ContextLookupIdempotent` | SampleApplication/Infrastructure/GenericWebHostBuilder.cs:183-199 | A second lookup returns the first result and leaves the bag as the first lookup left it. |
| `WebHostBuilder.GenericWebHostBuilder.GetWebHostBuilderContext` | SampleApplication/Infrastructure/GenericWebHostBuilder.cs:181-200 | The two in-place writes to the property bag produce the result and bag `ContextLookup` gives, for a context built from the current settings. |
| `WebHostBuilder.GenericWebHostBuilder.GetSetting` | SampleApplication/Infrastructure/GenericWebHostBuilder.cs:202-205 | It returns the setting when the key is present, and null otherwise. |
| `WebHostBuilder.GenericWebHostBuilder.UseSetting` | SampleApplication/Infrastructure/GenericWebHostBuilder.cs:207-211 | It returns `this`. Afterwards the key reads the new value, null included, and every other key reads as before. |
| `WebHostBuilder.GenericWebHostBuilder.ConfigureAppConfiguration` | SampleApplication/Infrastructure/GenericWebHostBuilder.cs:76-85 | It returns `this` and registers one context-wrapped app-configuration callback. Nothing else changes. |
| `WebHostBuilder.GenericWebHostBuilder.ConfigureServices` | SampleApplication/Infrastructure/GenericWebHostBuilder.cs:87-91 | It returns `this` and passes the callback through as one services registration. Nothing else changes. |
| `WebHostBuilder.GenericWebHostBuilder.ConfigureServicesWithContext` | SampleApplication/Infrastructure/GenericWebHostBuilder.cs:93-102 | It returns `this` and registers one context-wrapped services callback. Nothing else changes. |
| `WebHostBuilder.GenericWebHostBuilder.UseStartup` | SampleApplication/Infrastructure/GenericWebHostBuilder.cs:105-158 | It returns `this`. The application key is set to the startup assembly's name immediately, and one startup services callback is registered. |
| `WebHostBuilder.GenericWebHostBuilder.Configure` | SampleApplication/Infrastructure/GenericWebHostBuilder.cs:168-179 | It returns `this` and registers one callback that sets the configure-application delegate. |
| `WebHostBuilder.GenericWebHostBuilder.Build` | SampleApplication/Infrastructure/GenericWebHostBuilder.cs:71-74 | It always returns null. |
| `WebHostBuilder.GenericWebHostBuilder.constructor` | SampleApplication/Infrastructure/GenericWebHostBuilder.cs:24-69 | The settings start from the environment settings. One host-configuration callback and one services callback are registered. |
| `WebHostBuilder.GenericWebHostBuilder.UseExtension` | SampleApplication/Infrastructure/GenericHostBuilderExtensions.cs:17-22 | It returns `this`, records the extension's name, and appends the services callbacks the extension registers, in order. It writes the settings the extension writes and leaves every other key as it was. The other host-builder callbacks are unchanged. |
| `Strings.SplitAll` | SampleApplication/Infrastructure/WebHostedService.cs:74 | The result has at least one piece and no piece holds the separator. Joining the pieces gives back the input. |
| `Strings.SplitJoin` | SampleApplication/Infrastructure/WebHostedService.cs:74 | Splitting with `RemoveEmptyEntries` inverts joining non-empty, separator-free pieces. |
| `Strings.SplitContent` | SampleApplication/Infrastructure/GenericHostBuilderExtensions.cs:32 | The pieces, concatenated, are the input without its separators. |
| `Strings.SplitEmptyIff` | SampleApplication/Infrastructure/GenericHostBuilderExtensions.cs:32-34 | A string splits to nothing exactly when it consists only of separators. |

## Left out

- Reflection in `UseStartup` (lines 114-155) is not modelled. That covers constructing the startup object, finding `ConfigureServices`, `Configure` and `ConfigureContainer` by convention, and the generic `ConfigureContainer` plumbing. The registered callback is recorded as `StartupServices(startup)` and is not run.
- Dependency-injection registrations are not modelled: the builder's own services (lines 36-68), the change-token source and the `IStartupFilter` registration of the defaults. They are library behaviour. The host builder is modelled as the ordered list of callbacks registered on it, and those callbacks are never executed.
- `UseKestrel`, `UseIIS` and `UseIISIntegration` are extension methods defined elsewhere. The model takes what each one does as an unconstrained parameter: the services callbacks it registers, appended in order, and the settings it writes (for example `urls`, which `UseIISIntegration` sets). It does not model what those callbacks do, or settings they remove.
- The source of `WebHostUtilities.ParseBool` is not shown. `WebHosting.ParseBool` follows ASP.NET Core's definition: `true` in any ASCII letter case, or `1`. `WebHostOptions` and `HostingEnvironment.Initialize` are recorded by the arguments they are built from.
- The keys `urls`, `preferHostingUrls` and `applicationName` are the values of `WebHostDefaults` and `HostDefaults` constants, which are not part of this model.
- Configuration keys are compared exactly. In .NET they compare case-insensitively.
- `AddEnvironmentVariables(prefix: "ASPNETCORE_")` reads the process environment. The builder is given those settings with the prefix already removed.
- `Assembly.GetEntryAssembly()` is a runtime call. Its name is a constructor parameter.
- Async start and stop, and cancellation, are modelled as sequential steps. The server is modelled as the list of calls it receives. A real server may bind or change addresses while starting; the model's server does not.
- `HostingApplication` carries only the built pipeline, not the logger, listener or context factory. `ApplicationBuilder.Build` is modelled as the list of registered middleware.
- `WebHosting.WebHostService.Create`: a null `IOptions` wrapper and a null `Value` are one case (`None`). Both throw ArgumentNull("options").
- `HostingLogger.ApplicationError`: `Environment.NewLine` is `"\n"`, and loader exceptions are never null. .NET allows null entries, whose `Message` would throw.
- `StartupFilters.HostFilteringRegistersFirst`: delegates are pure functions of the builder's middleware list. "Calls `next` exactly once" is therefore stated as "the result is `next` run on the builder with host filtering added", not as a count of calls.
- `WebHosting.WebHostService.StartAsync`: the configure delegate, the startup filters, `Build` and the server's `StartAsync` never throw in the model. In the source, an exception at `WebHostedService.cs:89-94` propagates, and nothing after it runs or is logged.
- `WebHosting.WebHostService.StopAsync`: the server's `StopAsync` never throws in the model. In the source, an exception at `WebHostedService.cs:108` propagates to the caller.
- `WebHosting.WebHostService.PopulateServerAddresses`: a feature whose `Addresses` list is null is not modelled, because `AddressesFeature.addresses` is always a list. The source skips population (`WebHostedService.cs:66-67`) and logging (`WebHostedService.cs:96-97`) for such a feature. A missing feature or feature collection is modelled.
- Property-bag values that are null are not modelled. A cast of null would succeed in .NET.
- `WebApplicationLifetime.cs`, `Host.cs`, `Program.cs` and `SocketsHostingStartup.cs` are not part of this model. They contain I/O wiring, the process entry point and server configuration.

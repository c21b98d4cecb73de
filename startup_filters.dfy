/** Startup filters and the host-filtering filter.

    The application builder is modelled by the middleware registered on it,
    in order (`seq<string>`). A "configure application" delegate
    (`Action<IApplicationBuilder>`) is a function from that list to the list
    after it has run; a startup filter (`IStartupFilter.Configure`) turns one
    such delegate into another. */
module StartupFilters {

  /** The middleware registered on an application builder, in order. */
  type AppBuilder = seq<string>

  /** `Action<IApplicationBuilder>`: what running it does to the builder. */
  type Configure = AppBuilder -> AppBuilder

  /** `IStartupFilter.Configure`: wraps the next configure delegate. */
  type StartupFilter = Configure -> Configure

  /** The middleware `app.UseHostFiltering()` appends to the builder. */
  const HostFilteringMiddleware: string := "HostFilteringMiddleware"

  /** `HostFilteringStartupFilter.Configure(next)`: a delegate that first
      registers host filtering on the builder and then hands that same
      builder to `next`, once. Building the delegate runs nothing. */
  function HostFilteringConfigure(next: Configure): (r: Configure)
    ensures forall app: AppBuilder :: r(app) == next(app + [HostFilteringMiddleware])
  {
    (app: AppBuilder) => next(app + [HostFilteringMiddleware])
  }

  /** The delegate the filters build around `app`:
      `filters[0](filters[1](... filters[n-1](app)))`. The last-registered
      filter wraps `app` first and each earlier one wraps the result, which
      is the fold in reverse registration order. */
  function Compose(filters: seq<StartupFilter>, app: Configure): (r: Configure)
    ensures filters == [] ==> r == app
    ensures filters != [] ==> r == Compose(filters[..|filters| - 1], filters[|filters| - 1](app))
  {
    if filters == [] then app
    else
      assert filters[1..] != [] ==> filters[..|filters| - 1][1..] == filters[1..][..|filters[1..]| - 1];
      filters[0](Compose(filters[1..], app))
  }

  /** `filter` registers `middleware` on the builder and then runs the next
      delegate, once, on that same builder. */
  ghost predicate RegistersFirst(filter: StartupFilter, middleware: string)
  {
    forall next: Configure, app: AppBuilder :: filter(next)(app) == next(app + [middleware])
  }

  /** The host-filtering filter registers host filtering before `next` runs,
      and `next` sees the builder with host filtering already on it. */
  lemma HostFilteringRegistersFirst()
    ensures RegistersFirst(HostFilteringConfigure, HostFilteringMiddleware)
  {
  }

  /** Folding in two parts is folding the whole: composition is associative
      over concatenation of filter lists. */
  lemma {:induction false} ComposeAppend(a: seq<StartupFilter>, b: seq<StartupFilter>, app: Configure)
    ensures Compose(a + b, app) == Compose(a, Compose(b, app))
  {
    if a == [] {
      assert a + b == b;
    } else {
      assert (a + b)[0] == a[0] && (a + b)[1..] == a[1..] + b;
      ComposeAppend(a[1..], b, app);
    }
  }

  /** The first-registered filter runs outermost: when each filter registers
      one middleware before running the next delegate, the composed delegate
      registers the filters' middleware in registration order and then runs
      `app` last, on the same builder. */
  lemma {:induction false} ComposeOrder(filters: seq<StartupFilter>, names: seq<string>, app: Configure, builder: AppBuilder)
    requires |filters| == |names|
    requires forall i :: 0 <= i < |filters| ==> RegistersFirst(filters[i], names[i])
    ensures Compose(filters, app)(builder) == app(builder + names)
  {
    if filters == [] {
      assert builder + names == builder;
    } else {
      ComposeOrder(filters[1..], names[1..], app, builder + [names[0]]);
      assert RegistersFirst(filters[0], names[0]);
      assert Compose(filters, app)(builder) == Compose(filters[1..], app)(builder + [names[0]]);
      assert builder + [names[0]] + names[1..] == builder + names;
    }
  }

  /** A host whose only filter is the host-filtering one runs host filtering
      before any middleware the configure delegate registers. */
  lemma HostFilteringThenApplication(app: Configure)
    ensures Compose([HostFilteringConfigure], app)([]) == app([HostFilteringMiddleware])
  {
    HostFilteringRegistersFirst();
    ComposeOrder([HostFilteringConfigure], [HostFilteringMiddleware], app, []);
    assert [] + [HostFilteringMiddleware] == [HostFilteringMiddleware];
  }

  /** A host built with one filter that registers a marker and a configure
      delegate that registers another runs them as `[filter, user]`. */
  lemma FilterThenUser(filter: StartupFilter, filterMarker: string, userMarker: string)
    requires RegistersFirst(filter, filterMarker)
    ensures Compose([filter], (b: AppBuilder) => b + [userMarker])([]) == [filterMarker, userMarker]
  {
    ComposeOrder([filter], [filterMarker], (b: AppBuilder) => b + [userMarker], []);
    assert [] + [filterMarker] + [userMarker] == [filterMarker, userMarker];
  }
}

/**
 * The host side of the UI plugin contract: the process-wide registry of
 * plugin descriptors, the listing endpoint that reports it, and the route
 * planner that mounts one static-asset route per descriptor.
 */
module UiPlugins {
  import opened Wrappers

  /** A plugin's read-only asset tree. Only its identity matters here; `NilFS` is Go's nil interface. */
  datatype Assets = NilFS | Tree(id: nat)

  /** One registered UI plugin descriptor. */
  datatype UiPlugin = UiPlugin(name: string, base: string, icon: string, fs: Assets, ignoreRoute: bool)

  /** The part of a descriptor the sidebar sees. */
  datatype PluginInfo = PluginInfo(name: string, base: string, icon: string)

  /** Why registration panics: each of the three checks, in the order the source runs them. */
  datatype Violation = NoName | NoBase | NoFS

  function PanicMessage(v: Violation): string
  {
    match v
    case NoName => "ui-plugins: name cannot be empty"
    case NoBase => "ui-plugins: base path/url cannot be empty"
    case NoFS => "ui-plugins: fs cannot be nil"
  }

  /** The registry invariant for one descriptor. */
  predicate WellFormed(p: UiPlugin)
  {
    p.name != "" && p.base != "" && p.fs != NilFS
  }

  /** The checks run on one descriptor; the first one that fails decides the panic. */
  function Check(p: UiPlugin): (r: Option<Violation>)
    ensures r.None? <==> WellFormed(p)
  {
    if p.name == "" then Some(NoName)
    else if p.base == "" then Some(NoBase)
    else if p.fs == NilFS then Some(NoFS)
    else None
  }

  /** Position of the first descriptor of a batch that fails a check, or the batch length. */
  function FirstInvalid(batch: seq<UiPlugin>): (k: nat)
    ensures k <= |batch|
    ensures forall j :: 0 <= j < k ==> WellFormed(batch[j])
    ensures k < |batch| ==> !WellFormed(batch[k])
  {
    if batch == [] then 0
    else if !WellFormed(batch[0]) then 0
    else 1 + FirstInvalid(batch[1..])
  }

  /** The panic a batch provokes, if any: the first failing check of its first bad descriptor. */
  function FirstViolation(batch: seq<UiPlugin>): (r: Option<Violation>)
    ensures r.None? <==> forall i :: 0 <= i < |batch| ==> WellFormed(batch[i])
  {
    var k := FirstInvalid(batch);
    if k == |batch| then None else Check(batch[k])
  }

  /** The validation loop of RegisterUIPlugin: every descriptor is checked before anything is appended. */
  method Validate(batch: seq<UiPlugin>) returns (v: Option<Violation>)
    ensures v == FirstViolation(batch)
    ensures v.None? <==> forall i :: 0 <= i < |batch| ==> WellFormed(batch[i])
    ensures v.Some? ==> exists i :: 0 <= i < |batch| && Check(batch[i]) == v
  {
    var i := 0;
    while i < |batch|
      invariant 0 <= i <= |batch|
      invariant forall j :: 0 <= j < i ==> WellFormed(batch[j])
    {
      var c := Check(batch[i]);
      if c.Some? {
        return c;
      }
      i := i + 1;
    }
    return None;
  }

  /** The process-wide, append-only list of descriptors (the package-level `uiPlugins` slice). */
  class Registry {
    var plugins: seq<UiPlugin>

    ghost predicate Valid()
      reads this
    {
      forall i :: 0 <= i < |plugins| ==> WellFormed(plugins[i])
    }

    /** The registry starts as an empty, non-nil list. */
    constructor ()
      ensures Valid() && plugins == []
    {
      plugins := [];
    }

    /**
     * RegisterUIPlugin. A batch containing a bad descriptor panics with the
     * first failing check and adds nothing; otherwise the whole batch is
     * appended in argument order. Nothing is de-duplicated.
     */
    method Register(batch: seq<UiPlugin>) returns (panic: Option<Violation>)
      requires Valid()
      modifies this
      ensures Valid()
      ensures panic == FirstViolation(batch)
      ensures panic.None? ==> plugins == old(plugins) + batch
      ensures panic.Some? ==> plugins == old(plugins)
    {
      panic := Validate(batch);
      if panic.None? {
        plugins := plugins + batch;
      }
    }
  }

  /**
   * Registering two batches in a row succeeds iff registering their
   * concatenation does, and a failing concatenation reports the panic the
   * first failing call would report.
   */
  lemma {:induction false} RegisterCallsCompose(a: seq<UiPlugin>, b: seq<UiPlugin>)
    ensures FirstViolation(a + b) == if FirstViolation(a).Some? then FirstViolation(a) else FirstViolation(b)
  {
    var k := FirstInvalid(a);
    FirstInvalidAppend(a, b);
    if k < |a| {
      assert (a + b)[k] == a[k];
    } else {
      var m := FirstInvalid(b);
      if m < |b| {
        assert (a + b)[|a| + m] == b[m];
      }
    }
  }

  /** The first bad descriptor of a concatenation is the first of the first part, else the first of the second. */
  lemma {:induction false} FirstInvalidAppend(a: seq<UiPlugin>, b: seq<UiPlugin>)
    ensures FirstInvalid(a + b) == if FirstInvalid(a) < |a| then FirstInvalid(a) else |a| + FirstInvalid(b)
    decreases |a|
  {
    if a == [] {
      assert a + b == b;
    } else {
      assert (a + b)[0] == a[0];
      assert (a + b)[1..] == a[1..] + b;
      FirstInvalidAppend(a[1..], b);
    }
  }

  /** The panic text names the check that failed on the first bad descriptor. */
  lemma PanicNamesFailedCheck(batch: seq<UiPlugin>)
    requires FirstViolation(batch).Some?
    ensures var p := batch[FirstInvalid(batch)];
      var m := PanicMessage(FirstViolation(batch).value);
      && (m == "ui-plugins: name cannot be empty" <==> p.name == "")
      && (m == "ui-plugins: base path/url cannot be empty" <==> p.name != "" && p.base == "")
      && (m == "ui-plugins: fs cannot be nil" <==> p.name != "" && p.base != "" && p.fs == NilFS)
  {
    var p := batch[FirstInvalid(batch)];
    var m := PanicMessage(FirstViolation(batch).value);
    assert |PanicMessage(NoName)| != |PanicMessage(NoBase)|;
    assert |PanicMessage(NoName)| != |PanicMessage(NoFS)|;
    assert |PanicMessage(NoBase)| != |PanicMessage(NoFS)|;
  }

  // ---------------------------------------------------------------------
  // The listing endpoint (bindUIPluginsApi)
  // ---------------------------------------------------------------------

  function Info(p: UiPlugin): PluginInfo
  {
    PluginInfo(p.name, p.base, p.icon)
  }

  /**
   * The documented projection of the registry: name, base and icon of every
   * descriptor, in order. As written, the endpoint emits each entry of it
   * followed by the "_" key (`ListingResponseAsWritten`).
   */
  function Listing(plugins: seq<UiPlugin>): (r: seq<PluginInfo>)
    ensures |r| == |plugins|
    ensures forall i :: 0 <= i < |r| ==> r[i] == Info(plugins[i])
  {
    if plugins == [] then [] else [Info(plugins[0])] + Listing(plugins[1..])
  }

  /** Registration order is projection order: projecting a concatenation projects each part in turn. */
  lemma ListingAppend(a: seq<UiPlugin>, b: seq<UiPlugin>)
    ensures Listing(a + b) == Listing(a) + Listing(b)
  {
    var l, r := Listing(a + b), Listing(a) + Listing(b);
    assert |l| == |r|;
    forall i | 0 <= i < |l| ensures l[i] == r[i] {
      if i < |a| {
        assert (a + b)[i] == a[i];
      } else {
        assert (a + b)[i] == b[i - |a|];
      }
    }
  }

  /**
   * The documented projection depends on nothing but name, base and icon.
   * The endpoint as written does show the route flag (`ResponseShowsRouteFlag`).
   */
  lemma ProjectionIgnoresAssetsAndRouteFlag(a: seq<UiPlugin>, b: seq<UiPlugin>)
    requires |a| == |b|
    requires forall i :: 0 <= i < |a| ==> a[i].name == b[i].name && a[i].base == b[i].base && a[i].icon == b[i].icon
    ensures Listing(a) == Listing(b)
  {
    var la, lb := Listing(a), Listing(b);
    forall i | 0 <= i < |la| ensures la[i] == lb[i] {
    }
  }

  // ---------------------------------------------------------------------
  // JSON encoding of a descriptor, driven by the struct tags
  // ---------------------------------------------------------------------

  datatype Json = JString(s: string) | JBool(b: bool)

  /**
   * encoding/json's rule for one field with a plain, valid tag name: tag "-"
   * drops it, any other such tag is its key. Empty tags and tag options are
   * not needed here.
   */
  function EncodeField(tag: string, value: Json): seq<(string, Json)>
  {
    if tag == "-" then [] else [(tag, value)]
  }

  /** The key the source gives IgnoreRoute. */
  const IgnoreRouteTagAsWritten := "_"
  /** The tag that leaves IgnoreRoute out of the listing, as the listing's doc comment shows. */
  const IgnoreRouteTagIntended := "-"

  /** One descriptor encoded with the given tag on IgnoreRoute; FS carries tag "-" and is never encoded. */
  function EncodePlugin(p: UiPlugin, ignoreRouteTag: string): seq<(string, Json)>
  {
    EncodeField("name", JString(p.name))
    + EncodeField("base", JString(p.base))
    + EncodeField("icon", JString(p.icon))
    + EncodeField(ignoreRouteTag, JBool(p.ignoreRoute))
  }

  /** The object that the listing's doc comment promises for one plugin. */
  function InfoObject(i: PluginInfo): seq<(string, Json)>
  {
    [("name", JString(i.name)), ("base", JString(i.base)), ("icon", JString(i.icon))]
  }

  /** As written, every listed plugin carries a fourth key "_" holding its IgnoreRoute flag. */
  lemma IgnoreRouteLeaksAsWritten(p: UiPlugin)
    ensures EncodePlugin(p, IgnoreRouteTagAsWritten) == InfoObject(Info(p)) + [("_", JBool(p.ignoreRoute))]
    ensures |EncodePlugin(p, IgnoreRouteTagAsWritten)| == 4
  {
  }

  /** With the tag "-", the encoded object is exactly the three documented keys. */
  lemma IntendedEncodingIsInfo(p: UiPlugin)
    ensures EncodePlugin(p, IgnoreRouteTagIntended) == InfoObject(Info(p))
  {
  }

  /** The body of GET /ui-plugins: {"plugins": [...]}, one object per registered plugin. */
  datatype ListingResponse = ListingResponse(status: int, plugins: seq<seq<(string, Json)>>)

  /** Every registered descriptor encoded in registry order, with the given tag on IgnoreRoute. */
  function EncodeAll(plugins: seq<UiPlugin>, ignoreRouteTag: string): (r: seq<seq<(string, Json)>>)
    ensures |r| == |plugins|
    ensures forall i :: 0 <= i < |r| ==> r[i] == EncodePlugin(plugins[i], ignoreRouteTag)
  {
    if plugins == [] then []
    else [EncodePlugin(plugins[0], ignoreRouteTag)] + EncodeAll(plugins[1..], ignoreRouteTag)
  }

  /** The handler of GET /ui-plugins, for a given tag on IgnoreRoute. */
  function HandleListPlugins(plugins: seq<UiPlugin>, ignoreRouteTag: string): ListingResponse
  {
    ListingResponse(200, EncodeAll(plugins, ignoreRouteTag))
  }

  /**
   * As written, the listing response is status 200 with one object per
   * registered plugin, in order: its name, base and icon, then the key "_"
   * holding its IgnoreRoute flag.
   */
  lemma ListingResponseAsWritten(plugins: seq<UiPlugin>)
    ensures HandleListPlugins(plugins, IgnoreRouteTagAsWritten).status == 200
    ensures |HandleListPlugins(plugins, IgnoreRouteTagAsWritten).plugins| == |plugins|
    ensures forall i :: 0 <= i < |plugins| ==>
      HandleListPlugins(plugins, IgnoreRouteTagAsWritten).plugins[i]
      == InfoObject(Listing(plugins)[i]) + [("_", JBool(plugins[i].ignoreRoute))]
  {
    forall i | 0 <= i < |plugins|
      ensures HandleListPlugins(plugins, IgnoreRouteTagAsWritten).plugins[i]
              == InfoObject(Listing(plugins)[i]) + [("_", JBool(plugins[i].ignoreRoute))]
    {
      IgnoreRouteLeaksAsWritten(plugins[i]);
    }
  }

  /**
   * With the tag "-", the listing response is status 200 and holds exactly
   * the documented listing, in order; an empty registry gives [].
   */
  lemma ListingResponseIsListing(plugins: seq<UiPlugin>)
    ensures HandleListPlugins(plugins, IgnoreRouteTagIntended).status == 200
    ensures |HandleListPlugins(plugins, IgnoreRouteTagIntended).plugins| == |plugins|
    ensures forall i :: 0 <= i < |plugins| ==>
      HandleListPlugins(plugins, IgnoreRouteTagIntended).plugins[i] == InfoObject(Listing(plugins)[i])
    ensures plugins == [] ==> HandleListPlugins(plugins, IgnoreRouteTagIntended).plugins == []
  {
    forall i | 0 <= i < |plugins|
      ensures HandleListPlugins(plugins, IgnoreRouteTagIntended).plugins[i] == InfoObject(Listing(plugins)[i])
    {
      IntendedEncodingIsInfo(plugins[i]);
    }
  }

  // ---------------------------------------------------------------------
  // Routes (bindUIPluginsApi, bindUIPluginServeRoute)
  // ---------------------------------------------------------------------

  /** What a route does: report the listing, or serve files out of one asset tree. */
  datatype Handler = ListPlugins | ServeStatic(assets: Assets)

  datatype Route = Route(verb: string, path: string, handler: Handler)

  /** What a route answers: the listing response, or files out of an asset tree. */
  datatype Response = Listed(body: ListingResponse) | Served(assets: Assets)

  /** A handler's answer for the current registry; the listing is encoded with the tags as written. */
  function Respond(h: Handler, plugins: seq<UiPlugin>): Response
  {
    match h
    case ListPlugins => Listed(HandleListPlugins(plugins, IgnoreRouteTagAsWritten))
    case ServeStatic(assets) => Served(assets)
  }

  /**
   * The listing route answers 200 with one object per registered plugin,
   * in registry order: name, base, icon and the "_" flag.
   */
  lemma ListingRouteAnswersRegistry(plugins: seq<UiPlugin>)
    ensures Respond(ListPlugins, plugins).Listed?
    ensures Respond(ListPlugins, plugins).body.status == 200
    ensures |Respond(ListPlugins, plugins).body.plugins| == |plugins|
    ensures forall i :: 0 <= i < |plugins| ==>
      Respond(ListPlugins, plugins).body.plugins[i]
      == InfoObject(Info(plugins[i])) + [("_", JBool(plugins[i].ignoreRoute))]
  {
    ListingResponseAsWritten(plugins);
  }

  /**
   * As written, the endpoint tells apart registries that differ only in one
   * descriptor's route flag, although their documented projections agree.
   */
  lemma ResponseShowsRouteFlag(a: seq<UiPlugin>, i: nat)
    requires i < |a|
    ensures var b := a[i := a[i].(ignoreRoute := !a[i].ignoreRoute)];
      Listing(a) == Listing(b) && Respond(ListPlugins, a) != Respond(ListPlugins, b)
  {
    var b := a[i := a[i].(ignoreRoute := !a[i].ignoreRoute)];
    ProjectionIgnoresAssetsAndRouteFlag(a, b);
    ListingRouteAnswersRegistry(a);
    ListingRouteAnswersRegistry(b);
    var ea, eb := Respond(ListPlugins, a).body.plugins[i], Respond(ListPlugins, b).body.plugins[i];
    assert ea[3] != eb[3];
  }

  const ListingPath := "/ui-plugins"
  const CatchAll := "/{path...}"

  /** The pattern a plugin is mounted at. */
  function ServePattern(base: string): string
  {
    "/" + base + CatchAll
  }

  function RouteFor(p: UiPlugin): Route
  {
    Route("GET", ServePattern(p.base), ServeStatic(p.fs))
  }

  /** The routes bindUIPluginServeRoute installs for a registry, in installation order. */
  function ServeRoutes(plugins: seq<UiPlugin>): seq<Route>
  {
    if plugins == [] then []
    else
      var last := plugins[|plugins| - 1];
      ServeRoutes(plugins[..|plugins| - 1]) + (if last.ignoreRoute then [] else [RouteFor(last)])
  }

  /** The positions of the descriptors that get a route: increasing, and exactly those without IgnoreRoute. */
  function Mounted(plugins: seq<UiPlugin>): (idx: seq<nat>)
    ensures forall k :: 0 <= k < |idx| ==> idx[k] < |plugins| && !plugins[idx[k]].ignoreRoute
    ensures forall k, l :: 0 <= k < l < |idx| ==> idx[k] < idx[l]
    ensures forall i :: 0 <= i < |plugins| && !plugins[i].ignoreRoute ==> i in idx
  {
    if plugins == [] then []
    else
      var n := |plugins| - 1;
      Mounted(plugins[..n]) + (if plugins[n].ignoreRoute then [] else [n])
  }

  /** The k-th route installed is the GET "/<base>/{path...}" route of the k-th mounted descriptor. */
  lemma {:induction false} ServeRoutesFollowRegistry(plugins: seq<UiPlugin>)
    ensures |ServeRoutes(plugins)| == |Mounted(plugins)|
    ensures forall k :: 0 <= k < |Mounted(plugins)| ==>
      var p := plugins[Mounted(plugins)[k]];
      ServeRoutes(plugins)[k] == Route("GET", "/" + p.base + "/{path...}", ServeStatic(p.fs))
  {
    if plugins != [] {
      var n := |plugins| - 1;
      var init := plugins[..n];
      ServeRoutesFollowRegistry(init);
      forall k | 0 <= k < |Mounted(init)| ensures plugins[Mounted(init)[k]] == init[Mounted(init)[k]] {
      }
    }
  }

  /** There are never more routes than descriptors, and exactly as many when none sets IgnoreRoute. */
  lemma {:induction false} ServeRoutesCount(plugins: seq<UiPlugin>)
    ensures |ServeRoutes(plugins)| <= |plugins|
    ensures |ServeRoutes(plugins)| == |plugins| <==> forall i :: 0 <= i < |plugins| ==> !plugins[i].ignoreRoute
  {
    if plugins != [] {
      var n := |plugins| - 1;
      var init := plugins[..n];
      ServeRoutesCount(init);
      if forall i :: 0 <= i < |plugins| ==> !plugins[i].ignoreRoute {
        assert forall i :: 0 <= i < |init| ==> !init[i].ignoreRoute by {
          forall i | 0 <= i < |init| ensures !init[i].ignoreRoute {
            assert init[i] == plugins[i];
          }
        }
      } else if !plugins[n].ignoreRoute {
        var i :| 0 <= i < |plugins| && plugins[i].ignoreRoute;
        assert init[i] == plugins[i];
      }
    }
  }

  /** Routes for later registrations come after routes for earlier ones. */
  lemma {:induction false} ServeRoutesAppend(a: seq<UiPlugin>, b: seq<UiPlugin>)
    ensures ServeRoutes(a + b) == ServeRoutes(a) + ServeRoutes(b)
  {
    if b != [] {
      var n := |b| - 1;
      assert (a + b)[..|a + b| - 1] == a + b[..n];
      assert (a + b)[|a + b| - 1] == b[n];
      ServeRoutesAppend(a, b[..n]);
    } else {
      assert a + b == a;
    }
  }

  /** The routes a router group has collected, in installation order. */
  class RouterGroup {
    var routes: seq<Route>

    constructor ()
      ensures routes == []
    {
      routes := [];
    }

    method GET(path: string, handler: Handler)
      modifies this
      ensures routes == old(routes) + [Route("GET", path, handler)]
    {
      routes := routes + [Route("GET", path, handler)];
    }
  }

  /** bindUIPluginsApi: one GET route at "/ui-plugins" that answers with the listing. */
  method BindListingApi(rg: RouterGroup)
    modifies rg
    ensures rg.routes == old(rg.routes) + [Route("GET", ListingPath, ListPlugins)]
  {
    // a sub-group at "/ui-plugins" with one GET route at its own root ""
    assert ListingPath + "" == ListingPath;
    rg.GET(ListingPath + "", ListPlugins);
  }

  /** bindUIPluginServeRoute: walk the registry in order, mounting every descriptor without IgnoreRoute. */
  method BindServeRoutes(registry: Registry, g: RouterGroup)
    modifies g
    ensures g.routes == old(g.routes) + ServeRoutes(registry.plugins)
  {
    var i := 0;
    while i < |registry.plugins|
      invariant 0 <= i <= |registry.plugins|
      invariant g.routes == old(g.routes) + ServeRoutes(registry.plugins[..i])
    {
      var p := registry.plugins[i];
      assert registry.plugins[..i + 1][..i] == registry.plugins[..i];
      if !p.ignoreRoute {
        g.GET("/" + p.base + CatchAll, ServeStatic(p.fs));
      }
      i := i + 1;
    }
    assert registry.plugins[..i] == registry.plugins;
  }
}

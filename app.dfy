/**
 * The application shell (apps/sport_scale_app/src/App.tsx): loading the settings record
 * at start-up, persisting settings changes, and the route table it renders.
 */
module App {
  import opened Wrappers
  import opened Db
  import AppContext
  import Registry

  /**
   * `loadSettings`: reads the "settings" record; when there is none, stores the defaults
   * and starts with them, otherwise starts with the stored record unchanged.
   */
  method LoadSettings(db: AppDb) returns (settings: Settings)
    requires db.Valid()
    modifies db`settings
    ensures Get(old(db.settings), SettingsKey, "settings").None? ==>
      settings == DEFAULT_SETTINGS && db.settings == [DEFAULT_SETTINGS]
    ensures Get(old(db.settings), SettingsKey, "settings").Some? ==>
      settings == Get(old(db.settings), SettingsKey, "settings").value && db.settings == old(db.settings)
    ensures Get(db.settings, SettingsKey, "settings") == Some(settings)
    ensures db.Valid()
  {
    var stored := Get(db.settings, SettingsKey, "settings");
    if stored.None? {
      PutThenGet(db.settings, DEFAULT_SETTINGS, SettingsKey);
      PutKeepsOthers(db.settings, DEFAULT_SETTINGS, SettingsKey);
      PutSettingsTable(db.settings, DEFAULT_SETTINGS);
      db.settings := Put(db.settings, DEFAULT_SETTINGS, SettingsKey);
      settings := DEFAULT_SETTINGS;
    } else {
      settings := stored.value;
      StoredIsOnly(db.settings, settings);
    }
  }

  /** In a settings table with distinct keys, the record found under "settings" is the only record. */
  lemma StoredIsOnly(t: seq<Settings>, s: Settings)
    requires DistinctIds(t, SettingsKey)
    requires Get(t, SettingsKey, "settings") == Some(s)
    ensures t == [s]
  {
    SettingsSingleton(t);
  }

  /** `handleSettingsChange`: `settings.put(next)`, which replaces the stored record as a whole. */
  method HandleSettingsChange(db: AppDb, next: Settings)
    requires db.Valid()
    modifies db`settings
    ensures db.settings == Put(old(db.settings), next, SettingsKey) == [next]
    ensures Get(db.settings, SettingsKey, "settings") == Some(next)
    ensures db.Valid()
  {
    PutThenGet(db.settings, next, SettingsKey);
    PutKeepsOthers(db.settings, next, SettingsKey);
    PutSettingsTable(db.settings, next);
    db.settings := Put(db.settings, next, SettingsKey);
  }

  /**
   * A settings change made through the provider that `AppContent` wires to
   * `handleSettingsChange`: afterwards the in-memory state and the stored record agree.
   */
  method ChangeSettings(provider: AppContext.AppProvider, db: AppDb, next: Settings)
    requires db.Valid() && provider.hasOnSettingsChange
    modifies provider, db`settings
    ensures provider.settingsState == next && provider.forwarded == old(provider.forwarded) + [next]
    ensures Get(db.settings, SettingsKey, "settings") == Some(provider.settingsState)
    ensures db.Valid()
  {
    provider.SetSettings(next);
    HandleSettingsChange(db, next);
  }

  datatype RouteTarget = Redirect(destination: string) | Element(component: string)

  datatype AppRoute = AppRoute(path: string, target: RouteTarget)

  /** The redirect from the root. */
  const ROOT_ROUTE: AppRoute := AppRoute("/", Redirect("/gym"))

  /** The route table: the root redirect, then one route per registered route, keyed by its path. */
  function AppRoutes(routes: seq<Registry.RouteDef>): (r: seq<AppRoute>)
    ensures |r| == |routes| + 1 && r[0] == ROOT_ROUTE
    ensures forall i :: 0 <= i < |routes| ==>
      r[i + 1].path == routes[i].path && r[i + 1].target == Element(routes[i].element)
  {
    [ROOT_ROUTE] + seq(|routes|, i requires 0 <= i < |routes| =>
      AppRoute(routes[i].path, Element(routes[i].element)))
  }

  /** A route pattern and a location: equal, or a pattern ending in a slash and a star matching the base and everything below it. */
  predicate Matches(pattern: string, path: string) {
    if |pattern| >= 2 && pattern[(|pattern| - 2)..] == "/*" then
      var base := pattern[..|pattern| - 2];
      path == base || (|path| > |base| && path[..|base| + 1] == base + "/")
    else
      path == pattern
  }

  /** Route keys are the paths; they are distinct, as React requires of keys. */
  lemma RouteKeysDistinct()
    ensures forall i, j :: 0 <= i < j < |Registry.ROUTES| ==> Registry.ROUTES[i].path != Registry.ROUTES[j].path
  {
    Registry.RoutesContents();
  }

  /** The registered route paths, in registration order. */
  lemma RoutePaths()
    ensures |Registry.ROUTES| == 5
    ensures Registry.ROUTES[0].path == "/gym/*" && Registry.ROUTES[1].path == "/weight"
    ensures Registry.ROUTES[2].path == "/run" && Registry.ROUTES[3].path == "/nutrition"
    ensures Registry.ROUTES[4].path == "/more"
  {
    Registry.RoutesContents();
  }

  /** The navigation paths, in display order. */
  lemma NavPaths()
    ensures |Registry.NAV_ITEMS| == 5
    ensures Registry.NAV_ITEMS[0].path == "/gym" && Registry.NAV_ITEMS[1].path == "/weight"
    ensures Registry.NAV_ITEMS[2].path == "/run" && Registry.NAV_ITEMS[3].path == "/nutrition"
    ensures Registry.NAV_ITEMS[4].path == "/more"
  {
    Registry.NavItemsContents();
  }

  /** The k-th navigation entry leads to the k-th registered route. */
  lemma NavEntryRouted(k: int)
    requires 0 <= k < |Registry.NAV_ITEMS|
    ensures |Registry.ROUTES| == |Registry.NAV_ITEMS|
    ensures Matches(Registry.ROUTES[k].path, Registry.NAV_ITEMS[k].path)
  {
    RoutePaths();
    NavPaths();
    if k == 0 {
      var gym := Registry.ROUTES[0].path;
      assert gym[(|gym| - 2)..] == "/*" && gym[..|gym| - 2] == "/gym";
    }
  }

  /** Every entry of the navigation bar leads to a rendered feature route. */
  lemma NavigationIsRouted()
    ensures forall n :: n in Registry.NAV_ITEMS ==>
      exists i :: 0 <= i < |Registry.ROUTES| && Matches(Registry.ROUTES[i].path, n.path)
  {
    forall n | n in Registry.NAV_ITEMS
      ensures exists i :: 0 <= i < |Registry.ROUTES| && Matches(Registry.ROUTES[i].path, n.path)
    {
      var k :| 0 <= k < |Registry.NAV_ITEMS| && Registry.NAV_ITEMS[k] == n;
      NavEntryRouted(k);
    }
  }

  /** The root redirect's target, and the gym's nested pages, fall under the gym's wildcard route. */
  lemma GymPagesRouted()
    ensures Matches(Registry.ROUTES[0].path, ROOT_ROUTE.target.destination)
    ensures Matches(Registry.ROUTES[0].path, "/gym/workout/w1")
  {
    Registry.RoutesContents();
    var gym := Registry.ROUTES[0].path;
    assert gym == "/gym/*";
    assert gym[(|gym| - 2)..] == "/*" && gym[..|gym| - 2] == "/gym";
    var page := "/gym/workout/w1";
    assert page[..5] == "/gym/";
  }
}

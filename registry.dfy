/**
 * The feature registry (apps/sport_scale_app/src/features/registry.ts) and the feature
 * contract types it is built from (packages/contracts/src/index.ts). A route's element,
 * a React component, is represented by the component's name.
 */
module Registry {
  import opened Wrappers
  import Sorting

  /** `label` is a keyword in Dafny, hence `labelText`. */
  datatype NavItem = NavItem(labelText: string, path: string, icon: Option<string>, order: Option<int>)

  datatype RouteDef = RouteDef(path: string, element: string)

  /** A feature: its key, its navigation entry and its routes. No registered feature has an `init` hook. */
  datatype FeatureModule = FeatureModule(id: string, nav: NavItem, routes: seq<RouteDef>)

  const GYM: FeatureModule :=
    FeatureModule("gym", NavItem("Gym", "/gym", Some("\U{1F3CB}\U{FE0F}"), Some(1)), [RouteDef("/gym/*", "GymRoutes")])
  const WEIGHT: FeatureModule :=
    FeatureModule("weight", NavItem("Weight", "/weight", Some("\U{2696}\U{FE0F}"), Some(2)), [RouteDef("/weight", "WeightHome")])
  const RUN: FeatureModule :=
    FeatureModule("run", NavItem("Run", "/run", Some("\U{1F3C3}"), Some(3)), [RouteDef("/run", "RunHome")])
  const NUTRITION: FeatureModule :=
    FeatureModule("nutrition", NavItem("Nutrition", "/nutrition", Some("\U{1F957}"), Some(4)), [RouteDef("/nutrition", "NutritionHome")])
  const MORE: FeatureModule :=
    FeatureModule("more", NavItem("More", "/more", Some("\U{22EF}"), Some(5)), [RouteDef("/more", "MoreHome")])

  /** The registered features, in registration order. */
  const FEATURES: seq<FeatureModule> := [GYM, WEIGHT, RUN, NUTRITION, MORE]

  /** The sort key of a navigation entry: its order, 0 when it has none. */
  function NavOrder(n: NavItem): int { n.order.GetOr(0) }

  /** Each feature's navigation entry, in registration order. */
  function Navs(features: seq<FeatureModule>): (r: seq<NavItem>)
    ensures |r| == |features|
    ensures forall i :: 0 <= i < |features| ==> r[i] == features[i].nav
  {
    seq(|features|, i requires 0 <= i < |features| => features[i].nav)
  }

  /**
   * The navigation entries ordered by `NavOrder`: a permutation of the features' entries,
   * sorted, and (as `Array.prototype.sort` is stable) keeping registration order among ties.
   */
  function NavItems(features: seq<FeatureModule>): (r: seq<NavItem>)
    ensures |r| == |features|
    ensures multiset(r) == multiset(Navs(features))
    ensures Sorting.SortedBy(r, NavOrder)
  {
    Sorting.SortBy(Navs(features), NavOrder)
  }

  /** Entries with equal order keep their registration order. */
  lemma NavItemsStable(features: seq<FeatureModule>, k: int)
    ensures Sorting.WithKey(NavItems(features), NavOrder, k) == Sorting.WithKey(Navs(features), NavOrder, k)
  {
    Sorting.SortByStable(Navs(features), NavOrder, k);
  }

  /** `flatMap(feature => feature.routes)`: every feature's routes, feature after feature. */
  function FlatRoutes(features: seq<FeatureModule>): (r: seq<RouteDef>)
    ensures features == [] ==> r == []
    ensures |features| == 1 ==> r == features[0].routes
  {
    if features == [] then [] else FlatRoutes(features[..|features| - 1]) + features[|features| - 1].routes
  }

  /** Flattening distributes over concatenation of feature lists. */
  lemma {:induction false} FlatRoutesAppend(a: seq<FeatureModule>, b: seq<FeatureModule>)
    ensures FlatRoutes(a + b) == FlatRoutes(a) + FlatRoutes(b)
    decreases |b|
  {
    if b == [] {
      assert a + b == a;
    } else {
      var b' := b[..|b| - 1];
      assert (a + b)[..|a + b| - 1] == a + b';
      assert (a + b)[|a + b| - 1] == b[|b| - 1];
      FlatRoutesAppend(a, b');
    }
  }

  /** A route is in the flattened list exactly when some feature declares it. */
  lemma {:induction false} FlatRoutesMembers(features: seq<FeatureModule>, route: RouteDef)
    ensures route in FlatRoutes(features) <==> exists i :: 0 <= i < |features| && route in features[i].routes
  {
    if features != [] {
      var init := features[..|features| - 1];
      FlatRoutesMembers(init, route);
      assert forall i :: 0 <= i < |init| ==> init[i] == features[i];
      if route in features[|features| - 1].routes {
        assert route in FlatRoutes(features);
      }
    }
  }

  const NAV_ITEMS: seq<NavItem> := NavItems(FEATURES)
  const ROUTES: seq<RouteDef> := FlatRoutes(FEATURES)

  /** The orders 1 to 5 are already ascending, so the bar reads Gym, Weight, Run, Nutrition, More. */
  lemma NavItemsContents()
    ensures NAV_ITEMS == [GYM.nav, WEIGHT.nav, RUN.nav, NUTRITION.nav, MORE.nav]
  {
    var navs := Navs(FEATURES);
    assert navs == [GYM.nav, WEIGHT.nav, RUN.nav, NUTRITION.nav, MORE.nav];
    assert forall i :: 0 <= i < |navs| ==> NavOrder(navs[i]) == i + 1;
    Sorting.SortBySorted(navs, NavOrder);
  }

  /** The routes are the features' routes in registration order. */
  lemma RoutesContents()
    ensures ROUTES == GYM.routes + WEIGHT.routes + RUN.routes + NUTRITION.routes + MORE.routes
  {
    FlatRoutesAppend([GYM, WEIGHT, RUN, NUTRITION], [MORE]);
    FlatRoutesAppend([GYM, WEIGHT, RUN], [NUTRITION]);
    FlatRoutesAppend([GYM, WEIGHT], [RUN]);
    FlatRoutesAppend([GYM], [WEIGHT]);
    assert [GYM] + [WEIGHT] == [GYM, WEIGHT];
    assert [GYM, WEIGHT] + [RUN] == [GYM, WEIGHT, RUN];
    assert [GYM, WEIGHT, RUN] + [NUTRITION] == [GYM, WEIGHT, RUN, NUTRITION];
    assert [GYM, WEIGHT, RUN, NUTRITION] + [MORE] == FEATURES;
  }
}

/**
 * The Svelte navigation store: the current route and the components registered for the
 * routes. Both operations replace one field of the module-level state.
 */
module NavigationStore {
  import opened Json
  import opened PathTypes

  /** `NavigationPath`. */
  datatype NavigationPath = Dashboard | ProductCatalog | Import | Suppliers | StockList | StockMovement

  function PathText(p: NavigationPath): (s: string)
    ensures s in ValidPaths
  {
    match p
    case Dashboard => "/dashboard"
    case ProductCatalog => "/products/catalog"
    case Import => "/import"
    case Suppliers => "/suppliers"
    case StockList => "/stock/list"
    case StockMovement => "/stock/movement"
  }

  /** Every route of the type is one the guard accepts, and different routes have different texts. */
  lemma PathTextValidAndInjective(p: NavigationPath, q: NavigationPath)
    ensures IsValidPath(JString(PathText(p)))
    ensures PathText(p) == PathText(q) ==> p == q
  {
  }

  /** A registered component: an opaque component handle and its optional props. */
  datatype Registration = Registration(component: int, props: seq<(string, Json)>)

  class Navigation {
    var currentPath: NavigationPath
    var components: map<NavigationPath, Registration>

    /** The store's initial value. */
    constructor ()
      ensures currentPath == Dashboard && components == map[]
    {
      currentPath := Dashboard;
      components := map[];
    }

    /** `navigate(path)`: only the current path changes. */
    method Navigate(path: NavigationPath)
      modifies this`currentPath
      ensures currentPath == path
    {
      currentPath := path;
    }

    /** Navigating to a path twice leaves the state that navigating once leaves. */
    method NavigateTwice(path: NavigationPath)
      modifies this`currentPath
      ensures currentPath == path && components == old(components)
    {
      Navigate(path);
      ghost var once := currentPath;
      Navigate(path);
      assert currentPath == once;
    }

    /** `registerComponents(components)`: the whole registry is replaced; the path stays. */
    method RegisterComponents(registry: map<NavigationPath, Registration>)
      modifies this`components
      ensures components == registry
    {
      components := registry;
    }
  }
}

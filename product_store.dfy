/**
 * The Svelte product store: a `writable` holding products, categories and brands. The
 * product operations go through loading and then a result or an error; the category and
 * brand fetches never touch `loading`.
 */
module ProductStore {
  import opened Wrappers
  import opened Entities
  import opened Lists
  import opened Transport

  /** A category or brand as the store keeps it. */
  datatype Named = Named(id: int, name: string)

  datatype ProductStoreState = ProductStoreState(
    products: seq<Product>,
    categories: seq<Named>,
    brands: seq<Named>,
    loading: bool,
    error: Option<string>)

  const InitialState := ProductStoreState([], [], [], false, None)

  /** `update(state => ({ ...state, loading: true, error: null }))`. */
  function Begin(s: ProductStoreState): (r: ProductStoreState)
    ensures r.loading && r.error == None
    ensures r.products == s.products && r.categories == s.categories && r.brands == s.brands
  {
    s.(loading := true, error := None)
  }

  /** `update(state => ({ ...state, error, loading: false }))`. */
  function Fail(s: ProductStoreState, error: string): (r: ProductStoreState)
    ensures !r.loading && r.error == Some(error)
    ensures r.products == s.products && r.categories == s.categories && r.brands == s.brands
  {
    s.(loading := false, error := Some(error))
  }

  /** The list after `createProduct` succeeds: the new product goes last. */
  function Created(products: seq<Product>, created: Product): (r: seq<Product>)
    ensures |r| == |products| + 1 && r[..|products|] == products && r[|products|] == created
  {
    products + [created]
  }

  /** The list after `updateProduct(productId, …)` succeeds: every product with the requested id is replaced. */
  function Updated(products: seq<Product>, productId: int, updated: Product): (r: seq<Product>)
    ensures |r| == |products|
    ensures forall i :: 0 <= i < |products| && products[i].id == productId ==> r[i] == updated
    ensures forall i :: 0 <= i < |products| && products[i].id != productId ==> r[i] == products[i]
  {
    ReplaceAll(products, ProductKey, productId, updated)
  }

  /** The list after `deleteProduct(productId)` succeeds: exactly the products with that id are gone. */
  function Deleted(products: seq<Product>, productId: int): (r: seq<Product>)
    ensures forall p :: p in r <==> p in products && p.id != productId
    ensures forall p :: multiset(r)[p] == if p.id != productId then multiset(products)[p] else 0
    ensures IsSubsequence(r, products)
  {
    forall p ensures multiset(RemoveKey(products, ProductKey, productId))[p] ==
      if p.id != productId then multiset(products)[p] else 0 {
      RemoveKeyMultiplicity(products, ProductKey, productId, p);
    }
    RemoveKey(products, ProductKey, productId)
  }

  /** Updating a product whose id is absent changes nothing; deleting an absent id changes nothing. */
  lemma AbsentIdIsNoOp(products: seq<Product>, productId: int, updated: Product)
    requires forall i :: 0 <= i < |products| ==> products[i].id != productId
    ensures Updated(products, productId, updated) == products
    ensures Deleted(products, productId) == products
  {
    RemoveAbsentKey(products, ProductKey, productId);
  }

  class ProductStore {
    var state: ProductStoreState

    constructor ()
      ensures state == InitialState
    {
      state := InitialState;
    }

    /** `fetchProducts(filters)`: a non-ok status is reported without reading the body. */
    method FetchProducts(outcome: Outcome<seq<Product>>)
      modifies this
      ensures outcome.Delivered? ==> state == Begin(old(state)).(products := outcome.body, loading := false)
      ensures outcome.Failed? ==> state == Fail(Begin(old(state)), FailureText(outcome.failure, "Failed to fetch products", false))
    {
      state := Begin(state);
      match outcome
      case Delivered(products) => state := state.(products := products, loading := false);
      case Failed(f) => state := Fail(state, FailureText(f, "Failed to fetch products", false));
    }

    /** `createProduct(data)`: returns the server's product or rethrows the stored text. */
    method CreateProduct(outcome: Outcome<Product>) returns (r: Result<Product, string>)
      modifies this
      ensures outcome.Delivered? ==> (r == Ok(outcome.body) &&
        state == Begin(old(state)).(products := Created(old(state.products), outcome.body), loading := false))
      ensures outcome.Failed? ==> (r == Err(FailureText(outcome.failure, "Failed to create product", true)) &&
        state == Fail(Begin(old(state)), r.error))
    {
      state := Begin(state);
      match outcome
      case Delivered(created) =>
        state := state.(products := Created(state.products, created), loading := false);
        r := Ok(created);
      case Failed(f) =>
        var text := FailureText(f, "Failed to create product", true);
        state := Fail(state, text);
        r := Err(text);
    }

    /** `updateProduct(productId, data)`. */
    method UpdateProduct(productId: int, outcome: Outcome<Product>) returns (r: Result<Product, string>)
      modifies this
      ensures outcome.Delivered? ==> (r == Ok(outcome.body) &&
        state == Begin(old(state)).(products := Updated(old(state.products), productId, outcome.body), loading := false))
      ensures outcome.Failed? ==> (r == Err(FailureText(outcome.failure, "Failed to update product", true)) &&
        state == Fail(Begin(old(state)), r.error))
    {
      state := Begin(state);
      match outcome
      case Delivered(updated) =>
        state := state.(products := Updated(state.products, productId, updated), loading := false);
        r := Ok(updated);
      case Failed(f) =>
        var text := FailureText(f, "Failed to update product", true);
        state := Fail(state, text);
        r := Err(text);
    }

    /** `deleteProduct(productId)`: the failure is stored but not rethrown, and the body is not read. */
    method DeleteProduct(productId: int, outcome: Outcome<()>)
      modifies this
      ensures outcome.Delivered? ==> state == Begin(old(state)).(products := Deleted(old(state.products), productId), loading := false)
      ensures outcome.Failed? ==> state == Fail(Begin(old(state)), FailureText(outcome.failure, "Failed to delete product", false))
    {
      state := Begin(state);
      match outcome
      case Delivered(_) => state := state.(products := Deleted(state.products, productId), loading := false);
      case Failed(f) => state := Fail(state, FailureText(f, "Failed to delete product", false));
    }

    /** `fetchCategories()`: `loading` is never touched, and a success does not clear an earlier error. */
    method FetchCategories(outcome: Outcome<seq<Named>>)
      modifies this
      ensures state.loading == old(state.loading)
      ensures state.products == old(state.products) && state.brands == old(state.brands)
      ensures outcome.Delivered? ==> state.categories == outcome.body && state.error == old(state.error)
      ensures outcome.Failed? ==> (state.categories == old(state.categories) &&
        state.error == Some(FailureText(outcome.failure, "Failed to fetch categories", false)))
    {
      match outcome
      case Delivered(categories) => state := state.(categories := categories);
      case Failed(f) => state := state.(error := Some(FailureText(f, "Failed to fetch categories", false)));
    }

    /** `fetchBrands()`: as `fetchCategories`, for the brands. */
    method FetchBrands(outcome: Outcome<seq<Named>>)
      modifies this
      ensures state.loading == old(state.loading)
      ensures state.products == old(state.products) && state.categories == old(state.categories)
      ensures outcome.Delivered? ==> state.brands == outcome.body && state.error == old(state.error)
      ensures outcome.Failed? ==> (state.brands == old(state.brands) &&
        state.error == Some(FailureText(outcome.failure, "Failed to fetch brands", false)))
    {
      match outcome
      case Delivered(brands) => state := state.(brands := brands);
      case Failed(f) => state := state.(error := Some(FailureText(f, "Failed to fetch brands", false)));
    }

    /** `reset() { set(initialState) }`. */
    method Reset()
      modifies this
      ensures state == InitialState
    {
      state := InitialState;
    }
  }
}

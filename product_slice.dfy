/**
 * The Redux product slice: the product list, the selected product, and the reducer cases
 * that keep both in step with the server. `push`, indexed assignment after `findIndex` and
 * field writes after `find` change the state in place; here the state is a class.
 */
module ProductSlice {
  import opened Wrappers
  import opened Entities
  import opened Lists

  /** `const product = products.find(p => p.id === id); if (product) product.current_stock = q`. */
  function SetFirstStock(ps: seq<Product>, id: int, q: int): (r: seq<Product>)
    ensures |r| == |ps|
    ensures (forall j :: 0 <= j < |ps| ==> ps[j].id != id) ==> r == ps
    ensures forall i :: 0 <= i < |ps| && ps[i].id == id && (forall j :: 0 <= j < i ==> ps[j].id != id) ==>
      r == ps[i := ps[i].(currentStock := q)]
  {
    match FirstIndex(ps, ProductKey, id)
    case None => ps
    case Some(i) => ps[i := ps[i].(currentStock := q)]
  }

  /** Setting the stock of a product never changes which ids the list holds, nor their order. */
  lemma SetFirstStockKeepsIds(ps: seq<Product>, id: int, q: int)
    ensures forall i :: 0 <= i < |ps| ==> SetFirstStock(ps, id, q)[i].id == ps[i].id
  {
  }

  /**
   * `if (selectedProduct) selectedProduct.current_stock = quantity`: the fetched quantity is
   * written into any selected product; the product the stock belongs to is not consulted.
   */
  function WithFetchedStock(selected: Option<Product>, quantity: int): (r: Option<Product>)
    ensures r.Some? <==> selected.Some?
    ensures selected.Some? ==> r.value.currentStock == quantity && r.value.(currentStock := selected.value.currentStock) == selected.value
  {
    match selected
    case None => None
    case Some(p) => Some(p.(currentStock := quantity))
  }

  /** Redux `selectedX?.id === id`: a missing selection matches no id. */
  predicate SelectedIs(selected: Option<Product>, id: int) {
    selected.Some? && selected.value.id == id
  }

  class ProductState {
    var products: seq<Product>
    var selectedProduct: Option<Product>
    var loading: bool
    var error: Option<string>

    /** `initialState`. */
    constructor ()
      ensures products == [] && selectedProduct == None && !loading && error == None
    {
      products, selectedProduct, loading, error := [], None, false, None;
    }

    /** `clearError`. */
    method ClearError()
      modifies this`error
      ensures error == None
    {
      error := None;
    }

    /** `setSelectedProduct`. */
    method SetSelectedProduct(payload: Option<Product>)
      modifies this`selectedProduct
      ensures selectedProduct == payload
    {
      selectedProduct := payload;
    }

    /** `clearSelectedProduct`. */
    method ClearSelectedProduct()
      modifies this`selectedProduct
      ensures selectedProduct == None
    {
      selectedProduct := None;
    }

    /** `updateProductStock({productId, quantity})`: the first product with the id, and the selection if it has that id. */
    method UpdateProductStock(productId: int, quantity: int)
      modifies this`products, this`selectedProduct
      ensures products == SetFirstStock(old(products), productId, quantity)
      ensures SelectedIs(old(selectedProduct), productId) ==>
        selectedProduct == Some(old(selectedProduct).value.(currentStock := quantity))
      ensures !SelectedIs(old(selectedProduct), productId) ==> selectedProduct == old(selectedProduct)
    {
      products := SetFirstStock(products, productId, quantity);
      if SelectedIs(selectedProduct, productId) {
        selectedProduct := Some(selectedProduct.value.(currentStock := quantity));
      }
    }

    /** `fetchProducts.pending`. */
    method FetchProductsPending()
      modifies this`loading, this`error
      ensures loading && error == None
    {
      loading := true;
      error := None;
    }

    /** `fetchProducts.fulfilled`: the payload replaces the list. */
    method FetchProductsFulfilled(payload: seq<Product>)
      modifies this`loading, this`products
      ensures !loading && products == payload
    {
      loading := false;
      products := payload;
    }

    /** `fetchProducts.rejected`: the list is kept and the payload becomes the error. */
    method FetchProductsRejected(payload: Option<string>)
      modifies this`loading, this`error
      ensures !loading && error == payload
    {
      loading := false;
      error := payload;
    }

    /** `fetchProductDetails.fulfilled`. */
    method FetchProductDetailsFulfilled(payload: Product)
      modifies this`selectedProduct
      ensures selectedProduct == Some(payload)
    {
      selectedProduct := Some(payload);
    }

    /** `createProduct.fulfilled`: the new product goes last. */
    method CreateProductFulfilled(payload: Product)
      modifies this`products
      ensures products == old(products) + [payload]
    {
      products := products + [payload];
    }

    /**
     * `updateProduct.fulfilled`: only the first product with the payload's id is replaced; the
     * selection is replaced iff it has that id.
     */
    method UpdateProductFulfilled(payload: Product)
      modifies this`products, this`selectedProduct
      ensures products == ReplaceFirst(old(products), ProductKey, payload.id, payload)
      ensures |products| == |old(products)|
      ensures selectedProduct == if SelectedIs(old(selectedProduct), payload.id) then Some(payload) else old(selectedProduct)
    {
      var index := FirstIndex(products, ProductKey, payload.id);
      if index.Some? {
        products := products[index.value := payload];
      }
      if SelectedIs(selectedProduct, payload.id) {
        selectedProduct := Some(payload);
      }
    }

    /** `deleteProduct.fulfilled`: every product with the id goes; the selection is cleared iff it has the id. */
    method DeleteProductFulfilled(id: int)
      modifies this`products, this`selectedProduct
      ensures products == RemoveKey(old(products), ProductKey, id)
      ensures forall p :: p in products <==> p in old(products) && p.id != id
      ensures selectedProduct == if SelectedIs(old(selectedProduct), id) then None else old(selectedProduct)
    {
      products := RemoveKey(products, ProductKey, id);
      if SelectedIs(selectedProduct, id) {
        selectedProduct := None;
      }
    }

    /**
     * `fetchProductStock.fulfilled({product, quantity})`: the selection's stock is overwritten
     * whenever there is a selection, whatever its id; in the list only the first product with
     * the payload's id changes.
     */
    method FetchProductStockFulfilled(product: int, quantity: int)
      modifies this`products, this`selectedProduct
      ensures selectedProduct == WithFetchedStock(old(selectedProduct), quantity)
      ensures products == SetFirstStock(old(products), product, quantity)
    {
      selectedProduct := WithFetchedStock(selectedProduct, quantity);
      products := SetFirstStock(products, product, quantity);
    }
  }

  /** After an update and then a delete of the same id the list is as if only the delete had happened. */
  lemma UpdateThenDelete(ps: seq<Product>, payload: Product)
    ensures RemoveKey(ReplaceFirst(ps, ProductKey, payload.id, payload), ProductKey, payload.id) ==
            RemoveKey(ps, ProductKey, payload.id)
  {
    RemoveKeyAfterReplaceFirst(ps, ProductKey, payload.id, payload);
  }
}

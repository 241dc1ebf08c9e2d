/**
 * The product list page: the stock chip of a product, the search filter over name, SKU and
 * supplier, the page slice, and the page's state, including the delete confirmation dialog.
 */
module ProductListPage {
  import opened Wrappers
  import opened Text
  import opened Entities
  import opened Lists

  datatype Chip = Chip(text: string, color: string)

  /** `getStockStatus`, with the fixed low-stock bound 10. */
  function ProductStatus(p: Product): (c: Chip)
    ensures c.text == "Out of Stock" <==> p.currentStock <= 0
    ensures c.text == "Low Stock" <==> 0 < p.currentStock <= 10
    ensures c.text == "In Stock" <==> p.currentStock > 10
  {
    if p.currentStock <= 0 then Chip("Out of Stock", "error")
    else if p.currentStock <= 10 then Chip("Low Stock", "warning")
    else Chip("In Stock", "success")
  }

  function SearchMatch(term: string): Product -> bool {
    (p: Product) => MatchesIgnoreCase(p.name, term) || MatchesIgnoreCase(p.sku, term) || MatchesIgnoreCase(p.supplierName, term)
  }

  /** `filteredProducts`. */
  function FilteredProducts(products: seq<Product>, term: string): (r: seq<Product>)
    ensures forall x :: x in r <==> x in products && SearchMatch(term)(x)
    ensures IsSubsequence(r, products)
    ensures forall x {:trigger multiset(r)[x]} :: multiset(r)[x] == if SearchMatch(term)(x) then multiset(products)[x] else 0
  {
    FilterIsSubsequence(products, SearchMatch(term));
    assert forall x ::
      multiset(Filter(products, SearchMatch(term)))[x] ==
      (if SearchMatch(term)(x) then multiset(products)[x] else 0) by {
      forall x { FilterMultiplicity(products, SearchMatch(term), x); }
    }
    Filter(products, SearchMatch(term))
  }

  /** Searching for a product's own SKU finds it. */
  lemma SkuFindsProduct(products: seq<Product>, p: Product)
    requires p in products
    ensures p in FilteredProducts(products, p.sku)
  {
    SelfMatches(p.sku);
  }

  /** `paginatedProducts`. */
  function PaginatedProducts(products: seq<Product>, term: string, page: nat, rowsPerPage: nat): (r: seq<Product>)
    ensures |r| <= rowsPerPage
    ensures |r| == PageLength(|FilteredProducts(products, term)|, page, rowsPerPage)
    ensures forall k :: 0 <= k < |r| ==>
      page * rowsPerPage + k < |FilteredProducts(products, term)| &&
      r[k] == FilteredProducts(products, term)[page * rowsPerPage + k]
  {
    var f := FilteredProducts(products, term);
    PageContents(f, page, rowsPerPage);
    PageOf(f, page, rowsPerPage)
  }

  class ProductListView {
    var page: nat
    var rowsPerPage: nat
    var searchTerm: string
    var deleteDialogOpen: bool
    var productToDelete: Option<Product>

    constructor ()
      ensures page == 0 && rowsPerPage == 10 && searchTerm == ""
      ensures !deleteDialogOpen && productToDelete == None
    {
      page, rowsPerPage, searchTerm := 0, 10, "";
      deleteDialogOpen, productToDelete := false, None;
    }

    function Visible(products: seq<Product>): seq<Product>
      reads this
    {
      PaginatedProducts(products, searchTerm, page, rowsPerPage)
    }

    method ChangePage(newPage: nat)
      modifies this`page
      ensures page == newPage
    {
      page := newPage;
    }

    method ChangeRowsPerPage(n: nat)
      modifies this`rowsPerPage, this`page
      ensures rowsPerPage == n && page == 0
    {
      rowsPerPage := n;
      page := 0;
    }

    method Search(term: string)
      modifies this`searchTerm, this`page
      ensures searchTerm == term && page == 0
    {
      searchTerm := term;
      page := 0;
    }

    /** `handleDeleteClick`: remember the product and open the dialog. */
    method DeleteClick(p: Product)
      modifies this`productToDelete, this`deleteDialogOpen
      ensures productToDelete == Some(p) && deleteDialogOpen
    {
      productToDelete := Some(p);
      deleteDialogOpen := true;
    }

    /** The dialog's Cancel button and its `onClose`: the dialog closes, the remembered product stays. */
    method CancelDelete()
      modifies this`deleteDialogOpen
      ensures !deleteDialogOpen
    {
      deleteDialogOpen := false;
    }

    /**
     * `handleDeleteConfirm`: with a remembered product, dispatch the deletion of its id
     * (returned here), then close the dialog and forget the product; without one, nothing.
     */
    method DeleteConfirm() returns (dispatched: Option<int>)
      modifies this`productToDelete, this`deleteDialogOpen
      ensures old(productToDelete).Some? ==> (dispatched == Some(old(productToDelete).value.id) &&
        !deleteDialogOpen && productToDelete == None)
      ensures old(productToDelete).None? ==> (dispatched == None &&
        deleteDialogOpen == old(deleteDialogOpen) && productToDelete == None)
    {
      if productToDelete.Some? {
        dispatched := Some(productToDelete.value.id);
        deleteDialogOpen := false;
        productToDelete := None;
      } else {
        dispatched := None;
      }
    }
  }

  /**
   * After a cancel the dialog is closed, so the next deletion starts with another click: the
   * product then confirmed is that one, whatever was clicked before the cancel.
   */
  method CancelThenDeleteOther(view: ProductListView, p: Product, q: Product) returns (dispatched: Option<int>)
    modifies view`productToDelete, view`deleteDialogOpen
    ensures dispatched == Some(q.id)
    ensures !view.deleteDialogOpen && view.productToDelete == None
  {
    view.DeleteClick(p);
    view.CancelDelete();
    view.DeleteClick(q);
    dispatched := view.DeleteConfirm();
  }
}

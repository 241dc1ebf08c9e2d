/**
 * The Redux supplier slice: the supplier list, the selected supplier, and the reducer cases
 * that keep both in step with the server; the state is a class, as Immer lets the reducers
 * assign it in place.
 */
module SupplierSlice {
  import opened Wrappers
  import opened Entities
  import opened Lists

  /** Redux `selectedSupplier?.id === id`: a missing selection matches no id. */
  predicate SelectedIs(selected: Option<Supplier>, id: int) {
    selected.Some? && selected.value.id == id
  }

  class SupplierState {
    var suppliers: seq<Supplier>
    var selectedSupplier: Option<Supplier>
    var loading: bool
    var error: Option<string>

    /** `initialState`. */
    constructor ()
      ensures suppliers == [] && selectedSupplier == None && !loading && error == None
    {
      suppliers, selectedSupplier, loading, error := [], None, false, None;
    }

    /** `clearError`. */
    method ClearError()
      modifies this`error
      ensures error == None
    {
      error := None;
    }

    /** `setSelectedSupplier`: the payload is stored as it is. */
    method SetSelectedSupplier(payload: Option<Supplier>)
      modifies this`selectedSupplier
      ensures selectedSupplier == payload
    {
      selectedSupplier := payload;
    }

    /** `clearSelectedSupplier`: only the selection changes. */
    method ClearSelectedSupplier()
      modifies this`selectedSupplier
      ensures selectedSupplier == None
    {
      selectedSupplier := None;
    }

    /** `fetchSuppliers.pending`. */
    method FetchSuppliersPending()
      modifies this`loading, this`error
      ensures loading && error == None
    {
      loading := true;
      error := None;
    }

    /** `fetchSuppliers.fulfilled`: the payload replaces the list wholesale. */
    method FetchSuppliersFulfilled(payload: seq<Supplier>)
      modifies this`loading, this`suppliers
      ensures !loading && suppliers == payload
    {
      loading := false;
      suppliers := payload;
    }

    /** `fetchSuppliers.rejected`: the previous list is kept and the payload becomes the error. */
    method FetchSuppliersRejected(payload: Option<string>)
      modifies this`loading, this`error
      ensures !loading && error == payload
    {
      loading := false;
      error := payload;
    }

    /** `fetchSupplierDetails.fulfilled`. */
    method FetchSupplierDetailsFulfilled(payload: Supplier)
      modifies this`selectedSupplier
      ensures selectedSupplier == Some(payload)
    {
      selectedSupplier := Some(payload);
    }

    /** `createSupplier.fulfilled`: the new supplier goes last. */
    method CreateSupplierFulfilled(payload: Supplier)
      modifies this`suppliers
      ensures suppliers == old(suppliers) + [payload]
    {
      suppliers := suppliers + [payload];
    }

    /** `updateSupplier.fulfilled`: only the first supplier with the payload's id, and the selection if it has that id. */
    method UpdateSupplierFulfilled(payload: Supplier)
      modifies this`suppliers, this`selectedSupplier
      ensures suppliers == ReplaceFirst(old(suppliers), SupplierKey, payload.id, payload)
      ensures |suppliers| == |old(suppliers)|
      ensures selectedSupplier == if SelectedIs(old(selectedSupplier), payload.id) then Some(payload) else old(selectedSupplier)
    {
      var index := FirstIndex(suppliers, SupplierKey, payload.id);
      if index.Some? {
        suppliers := suppliers[index.value := payload];
      }
      if SelectedIs(selectedSupplier, payload.id) {
        selectedSupplier := Some(payload);
      }
    }

    /** `deleteSupplier.fulfilled`: every supplier with the id goes; the selection is cleared iff it has the id. */
    method DeleteSupplierFulfilled(id: int)
      modifies this`suppliers, this`selectedSupplier
      ensures suppliers == RemoveKey(old(suppliers), SupplierKey, id)
      ensures forall s :: s in suppliers <==> s in old(suppliers) && s.id != id
      ensures selectedSupplier == if SelectedIs(old(selectedSupplier), id) then None else old(selectedSupplier)
    {
      suppliers := RemoveKey(suppliers, SupplierKey, id);
      if SelectedIs(selectedSupplier, id) {
        selectedSupplier := None;
      }
    }
  }

  /**
   * `findIndex` replaces one entry only: when an id occurs twice, every later copy keeps its
   * old value, unlike the `map` the Svelte supplier store uses, which replaces them all.
   */
  lemma UpdateReplacesOnlyFirstDuplicate(suppliers: seq<Supplier>, payload: Supplier, i: int, j: int)
    requires 0 <= i < j < |suppliers| && suppliers[i].id == payload.id && suppliers[j].id == payload.id
    ensures ReplaceFirst(suppliers, SupplierKey, payload.id, payload)[j] == suppliers[j]
    ensures ReplaceAll(suppliers, SupplierKey, payload.id, payload)[j] == payload
  {
    var first := FirstIndex(suppliers, SupplierKey, payload.id).value;
    assert first <= i;
  }
}

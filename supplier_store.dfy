/**
 * The Svelte supplier store: a `writable` holding the supplier list, replaced step by step
 * by each async method (loading, then the result or the error). The response can be a bare
 * array or a paginated `{results: ...}` envelope; both are normalised to a list.
 */
module SupplierStore {
  import opened Wrappers
  import opened Text
  import opened Entities
  import opened Lists
  import opened Transport

  /**
   * The JSON body of `GET /suppliers/`: a bare array, an object whose `results` is an array
   * (`Some`) or missing or falsy (`None`), or `null`.
   */
  datatype SupplierBody = BareArray(items: seq<Supplier>) | Envelope(results: Option<seq<Supplier>>) | NullBody

  /** What a V8 engine throws for `null.results`. */
  const NullBodyError := ErrorObject("Cannot read properties of null (reading 'results')")

  /** `Array.isArray(data) ? data : data.results || []`; reading `results` of `null` throws. */
  function Normalise(body: SupplierBody): (r: Result<seq<Supplier>, Thrown>)
    ensures body.BareArray? ==> r == Ok(body.items)
    ensures body.Envelope? && body.results.Some? ==> r == Ok(body.results.value)
    ensures body.Envelope? && body.results.None? ==> r == Ok([])
    ensures body.NullBody? <==> r.Err?
  {
    match body
    case BareArray(items) => Ok(items)
    case Envelope(results) => Ok(results.GetOr([]))
    case NullBody => Err(NullBodyError)
  }

  /** The two response shapes carry the same list to the store. */
  lemma NormaliseShapesAgree(items: seq<Supplier>)
    ensures Normalise(BareArray(items)) == Normalise(Envelope(Some(items)))
    ensures Normalise(Envelope(None)) == Normalise(BareArray([]))
  {
  }

  /** The query parameters of `fetchSuppliers(searchQuery)`: `search` is added iff the query is truthy. */
  function SearchParams(searchQuery: Option<string>): (r: seq<(string, string)>)
    ensures |r| <= 1
    ensures r != [] <==> Truthy(searchQuery)
    ensures r != [] ==> r[0] == ("search", searchQuery.value)
  {
    if Truthy(searchQuery) then [("search", searchQuery.value)] else []
  }

  /** `${endpoint}?${queryParams.toString()}` for the parameters above (percent-encoding not modelled). */
  function FetchUrl(endpoint: string, searchQuery: Option<string>): (url: string)
    ensures |url| > |endpoint| && url[..|endpoint| + 1] == endpoint + "?"
    ensures Truthy(searchQuery) ==> url == endpoint + "?search=" + searchQuery.value
    ensures !Truthy(searchQuery) ==> url == endpoint + "?"
  {
    var params := SearchParams(searchQuery);
    endpoint + "?" + (if params == [] then "" else params[0].0 + "=" + params[0].1)
  }

  /** The URL of one supplier: `${endpoint}${supplierId}/`. */
  function SupplierUrl(endpoint: string, supplierId: int): (url: string)
    ensures |url| > |endpoint| && url[..|endpoint|] == endpoint && url[|url| - 1] == '/'
    ensures url[|endpoint|..|url| - 1] == IntToString(supplierId)
  {
    endpoint + IntToString(supplierId) + "/"
  }

  /** Different supplier ids give different URLs. */
  lemma SupplierUrlInjective(endpoint: string, a: int, b: int)
    requires SupplierUrl(endpoint, a) == SupplierUrl(endpoint, b)
    ensures a == b
  {
    var ua, ub := SupplierUrl(endpoint, a), SupplierUrl(endpoint, b);
    assert ua[|endpoint|..|ua| - 1] == IntToString(a);
    assert ub[|endpoint|..|ub| - 1] == IntToString(b);
    IntToStringInjective(a, b);
  }

  datatype SupplierStoreState = SupplierStoreState(suppliers: seq<Supplier>, loading: bool, error: Option<string>)

  const InitialState := SupplierStoreState([], false, None)

  /** `update(state => ({ ...state, loading: true, error: null }))`. */
  function Begin(s: SupplierStoreState): (r: SupplierStoreState)
    ensures r.loading && r.error == None && r.suppliers == s.suppliers
  {
    s.(loading := true, error := None)
  }

  /** `update(state => ({ ...state, error, loading: false }))`. */
  function Fail(s: SupplierStoreState, error: string): (r: SupplierStoreState)
    ensures !r.loading && r.error == Some(error) && r.suppliers == s.suppliers
  {
    s.(loading := false, error := Some(error))
  }

  /** `fetchSuppliers`' request and normalisation as one outcome: the list, or the text the catch block stores. */
  function FetchResult(outcome: Outcome<SupplierBody>): (r: Result<seq<Supplier>, string>)
    ensures outcome.Delivered? && !outcome.body.NullBody? ==> r.Ok?
    ensures outcome.Failed? && outcome.failure.Refused? ==> r == Err("Failed to fetch suppliers")
    ensures outcome.Failed? && outcome.failure.Threw? ==> r == Err(CaughtMessage(outcome.failure.thrown))
  {
    match outcome
    case Delivered(body) =>
      (match Normalise(body)
       case Ok(list) => Ok(list)
       case Err(t) => Err(CaughtMessage(t)))
    case Failed(f) => Err(FailureText(f, "Failed to fetch suppliers", false))
  }

  /** The list after `createSupplier` succeeds: the server's supplier goes last. */
  function Created(suppliers: seq<Supplier>, created: Supplier): (r: seq<Supplier>)
    ensures |r| == |suppliers| + 1 && r[..|suppliers|] == suppliers && r[|suppliers|] == created
  {
    suppliers + [created]
  }

  /**
   * The list after `updateSupplier(supplierId, …)` succeeds: every entry whose id is the
   * REQUESTED id becomes the server's supplier, whatever id the server's supplier carries.
   */
  function Updated(suppliers: seq<Supplier>, supplierId: int, updated: Supplier): (r: seq<Supplier>)
    ensures |r| == |suppliers|
    ensures forall i :: 0 <= i < |suppliers| && suppliers[i].id == supplierId ==> r[i] == updated
    ensures forall i :: 0 <= i < |suppliers| && suppliers[i].id != supplierId ==> r[i] == suppliers[i]
  {
    ReplaceAll(suppliers, SupplierKey, supplierId, updated)
  }

  /** The list after `deleteSupplier(supplierId)` succeeds: exactly the entries with that id are gone. */
  function Deleted(suppliers: seq<Supplier>, supplierId: int): (r: seq<Supplier>)
    ensures forall s :: s in r <==> s in suppliers && s.id != supplierId
    ensures forall s :: multiset(r)[s] == if s.id != supplierId then multiset(suppliers)[s] else 0
    ensures IsSubsequence(r, suppliers)
  {
    forall s ensures multiset(RemoveKey(suppliers, SupplierKey, supplierId))[s] ==
      if s.id != supplierId then multiset(suppliers)[s] else 0 {
      RemoveKeyMultiplicity(suppliers, SupplierKey, supplierId, s);
    }
    RemoveKey(suppliers, SupplierKey, supplierId)
  }

  /** Deleting twice is deleting once; updating an entry and then deleting its id is deleting it. */
  lemma DeleteProperties(suppliers: seq<Supplier>, supplierId: int, updated: Supplier)
    ensures Deleted(Deleted(suppliers, supplierId), supplierId) == Deleted(suppliers, supplierId)
    ensures updated.id == supplierId ==>
      Deleted(Updated(suppliers, supplierId, updated), supplierId) == Deleted(suppliers, supplierId)
  {
    RemoveKeyIdempotent(suppliers, SupplierKey, supplierId);
    if updated.id == supplierId {
      RemoveKeyAfterReplaceAll(suppliers, SupplierKey, supplierId, updated);
    }
  }

  class SupplierStore {
    var state: SupplierStoreState

    constructor ()
      ensures state == InitialState
    {
      state := InitialState;
    }

    /** `fetchSuppliers(searchQuery)` after the request ended with `outcome`. */
    method FetchSuppliers(outcome: Outcome<SupplierBody>)
      modifies this
      ensures FetchResult(outcome).Ok? ==> state == SupplierStoreState(FetchResult(outcome).value, false, None)
      ensures FetchResult(outcome).Err? ==> state == Fail(Begin(old(state)), FetchResult(outcome).error)
    {
      state := Begin(state);
      match FetchResult(outcome)
      case Ok(list) => state := state.(suppliers := list, loading := false);
      case Err(text) => state := Fail(state, text);
    }

    /** `createSupplier(data)`: returns the server's supplier, or rethrows the stored error text. */
    method CreateSupplier(outcome: Outcome<Supplier>) returns (r: Result<Supplier, string>)
      modifies this
      ensures outcome.Delivered? ==> (r == Ok(outcome.body) &&
        state == SupplierStoreState(Created(old(state.suppliers), outcome.body), false, None))
      ensures outcome.Failed? ==> (r == Err(FailureText(outcome.failure, "Failed to create supplier", true)) &&
        state == Fail(Begin(old(state)), r.error))
    {
      state := Begin(state);
      match outcome
      case Delivered(created) =>
        state := state.(suppliers := Created(state.suppliers, created), loading := false);
        r := Ok(created);
      case Failed(f) =>
        var text := FailureText(f, "Failed to create supplier", true);
        state := Fail(state, text);
        r := Err(text);
    }

    /** `updateSupplier(supplierId, data)`. */
    method UpdateSupplier(supplierId: int, outcome: Outcome<Supplier>) returns (r: Result<Supplier, string>)
      modifies this
      ensures outcome.Delivered? ==> (r == Ok(outcome.body) &&
        state == SupplierStoreState(Updated(old(state.suppliers), supplierId, outcome.body), false, None))
      ensures outcome.Failed? ==> (r == Err(FailureText(outcome.failure, "Failed to update supplier", true)) &&
        state == Fail(Begin(old(state)), r.error))
    {
      state := Begin(state);
      match outcome
      case Delivered(updated) =>
        state := state.(suppliers := Updated(state.suppliers, supplierId, updated), loading := false);
        r := Ok(updated);
      case Failed(f) =>
        var text := FailureText(f, "Failed to update supplier", true);
        state := Fail(state, text);
        r := Err(text);
    }

    /** `deleteSupplier(supplierId)`; a success carries no body. */
    method DeleteSupplier(supplierId: int, outcome: Outcome<()>) returns (r: Result<(), string>)
      modifies this
      ensures outcome.Delivered? ==> (r.Ok? &&
        state == SupplierStoreState(Deleted(old(state.suppliers), supplierId), false, None))
      ensures outcome.Failed? ==> (r == Err(FailureText(outcome.failure, "Failed to delete supplier", true)) &&
        state == Fail(Begin(old(state)), r.error))
    {
      state := Begin(state);
      match outcome
      case Delivered(_) =>
        state := state.(suppliers := Deleted(state.suppliers, supplierId), loading := false);
        r := Ok(());
      case Failed(f) =>
        var text := FailureText(f, "Failed to delete supplier", true);
        state := Fail(state, text);
        r := Err(text);
    }

    /** `reset() { set(initialState) }`. */
    method Reset()
      modifies this
      ensures state == InitialState
    {
      state := InitialState;
    }
  }
}

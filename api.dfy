/**
 * The axios client of the React front end: its base URL, the request interceptor that
 * attaches the stored token, and the endpoint table (fixed paths, and paths built from an id).
 */
module Api {
  import opened Wrappers
  import opened Text

  /** `process.env.REACT_APP_API_URL || 'http://localhost:8000/api'`. */
  function ApiUrl(env: Option<string>): (url: string)
    ensures Truthy(env) ==> url == env.value
    ensures !Truthy(env) ==> url == "http://localhost:8000/api"
  {
    OrElse(env, "http://localhost:8000/api")
  }

  /** The headers every request starts with. */
  const DefaultHeaders: map<string, string> := map["Content-Type" := "application/json"]

  /** The part of an axios request configuration the interceptor touches. */
  class RequestConfig {
    var headers: map<string, string>

    constructor ()
      ensures headers == DefaultHeaders
    {
      headers := DefaultHeaders;
    }

    /**
     * The request interceptor, with `token` the value of `localStorage.getItem('token')`: a
     * non-empty token sets `Authorization: Bearer <token>`; a missing or empty one leaves the
     * headers as they were (and an `Authorization` header already there stays).
     */
    method Intercept(token: Option<string>)
      modifies this
      ensures Truthy(token) ==> headers == old(headers)["Authorization" := "Bearer " + token.value]
      ensures !Truthy(token) ==> headers == old(headers)
    {
      if token.Some? && token.value != "" {
        headers := headers["Authorization" := "Bearer " + token.value];
      }
    }
  }

  // ---- the endpoint table ----

  const Login := "/auth/login/"
  const Logout := "/auth/logout/"
  const Suppliers := "/suppliers/"
  const Products := "/products/"
  const Stocks := "/stocks/"
  const LowStock := "/stocks/low_stock/"
  const HighStock := "/stocks/high_stock/"
  const StockMovements := "/stock-movements/"
  const DailySummary := "/stock-movements/daily_summary/"
  const WeeklySummary := "/stock-movements/weekly_summary/"
  const UploadHistory := "/upload-history/"
  const FailedUploads := "/upload-history/failed_uploads/"
  const PendingUploads := "/upload-history/pending_uploads/"
  const Notifications := "/notifications/"
  const UnreadNotifications := "/notifications/unread/"
  const MarkAllNotificationsRead := "/notifications/mark_all_as_read/"

  /** The fixed endpoints of the table, in its order. */
  const StaticEndpoints: seq<string> := [Login, Logout, Suppliers, Products, Stocks, LowStock, HighStock,
    StockMovements, DailySummary, WeeklySummary, UploadHistory, FailedUploads, PendingUploads,
    Notifications, UnreadNotifications, MarkAllNotificationsRead]

  /** A path relative to the base URL, in the slash-terminated form Django's router expects. */
  predicate IsEndpoint(p: string) {
    |p| >= 2 && p[0] == '/' && p[|p| - 1] == '/'
  }

  /** Every fixed endpoint starts and ends with '/', so appending one to the base URL needs no separator. */
  lemma StaticEndpointsAreSlashed()
    ensures |StaticEndpoints| == 16
    ensures forall k :: 0 <= k < |StaticEndpoints| ==> IsEndpoint(StaticEndpoints[k])
  {
  }

  /** The shape of every id-built endpoint: `${collection}${id}/${tail}`. */
  function ItemPath(collection: string, id: int, tail: string): (p: string)
    ensures |p| == |collection| + |IntToString(id)| + 1 + |tail|
    ensures p[..|collection|] == collection
    ensures p[|collection|..|collection| + |IntToString(id)|] == IntToString(id)
    ensures p[|collection| + |IntToString(id)|] == '/'
    ensures p[|p| - |tail|..] == tail
    ensures IsEndpoint(collection) && (tail == "" || tail[|tail| - 1] == '/') ==> IsEndpoint(p)
  {
    collection + IntToString(id) + "/" + tail
  }

  /** Two ids give the same endpoint (with the same collection and tail) only when they are equal. */
  lemma {:induction false} ItemPathInjective(collection: string, a: int, b: int, tail: string)
    requires ItemPath(collection, a, tail) == ItemPath(collection, b, tail)
    ensures a == b
  {
    var p := ItemPath(collection, a, tail);
    var sa, sb := IntToString(a), IntToString(b);
    assert |sa| == |sb|;
    assert sa == p[|collection|..|collection| + |sa|] == sb;
    IntToStringInjective(a, b);
  }

  /** `p` is an endpoint under `collection` whose id segment is the decimal rendering of `id`, ending in `tail`. */
  predicate NamesRecord(p: string, collection: string, id: int, tail: string) {
    IsEndpoint(p) && |collection| + |IntToString(id)| < |p| && |tail| <= |p| &&
    p[..|collection|] == collection && p[|p| - |tail|..] == tail &&
    p[|collection|..|collection| + |IntToString(id)|] == IntToString(id) && p[|collection| + |IntToString(id)|] == '/'
  }

  /** An endpoint names at most one record of a collection: the id can be read off the path. */
  lemma NamesRecordDeterminesId(p: string, collection: string, a: int, b: int, tail: string)
    requires NamesRecord(p, collection, a, tail) && NamesRecord(p, collection, b, tail)
    ensures a == b
  {
    var sa, sb := IntToString(a), IntToString(b);
    IntToStringHasNoSlash(a);
    IntToStringHasNoSlash(b);
    if |sa| == |sb| {
      assert sa == sb;
      IntToStringInjective(a, b);
    }
  }

  /** `suppliers/${id}/`. */
  function SupplierDetail(id: int): (p: string)
    ensures NamesRecord(p, Suppliers, id, "")
  {
    ItemPath(Suppliers, id, "")
  }

  /** `suppliers/${id}/products/`. */
  function SupplierProducts(id: int): (p: string)
    ensures NamesRecord(p, Suppliers, id, "products/")
  {
    ItemPath(Suppliers, id, "products/")
  }

  /** `products/${id}/`. */
  function ProductDetail(id: int): (p: string)
    ensures NamesRecord(p, Products, id, "")
  {
    ItemPath(Products, id, "")
  }

  /** `products/${id}/current_stock/`. */
  function ProductStock(id: int): (p: string)
    ensures NamesRecord(p, Products, id, "current_stock/")
  {
    ItemPath(Products, id, "current_stock/")
  }

  /** `products/${id}/stock_history/`. */
  function ProductHistory(id: int): (p: string)
    ensures NamesRecord(p, Products, id, "stock_history/")
  {
    ItemPath(Products, id, "stock_history/")
  }

  /** `stocks/${id}/`. */
  function StockDetail(id: int): (p: string)
    ensures NamesRecord(p, Stocks, id, "")
  {
    ItemPath(Stocks, id, "")
  }

  /** `stock-movements/${id}/`. */
  function MovementDetail(id: int): (p: string)
    ensures NamesRecord(p, StockMovements, id, "")
  {
    ItemPath(StockMovements, id, "")
  }

  /** `notifications/${id}/mark_as_read/`. */
  function MarkNotificationRead(id: int): (p: string)
    ensures NamesRecord(p, Notifications, id, "mark_as_read/")
  {
    ItemPath(Notifications, id, "mark_as_read/")
  }

  /** The nested endpoints of a record extend its detail endpoint. */
  lemma NestedEndpointsExtendDetail(id: int)
    ensures SupplierProducts(id) == SupplierDetail(id) + "products/"
    ensures ProductStock(id) == ProductDetail(id) + "current_stock/"
    ensures ProductHistory(id) == ProductDetail(id) + "stock_history/"
    ensures MarkNotificationRead(id) == ItemPath(Notifications, id, "") + "mark_as_read/"
  {
    ItemPathExtends(Suppliers, id, "products/");
    ItemPathExtends(Products, id, "current_stock/");
    ItemPathExtends(Products, id, "stock_history/");
    ItemPathExtends(Notifications, id, "mark_as_read/");
  }

  lemma ItemPathExtends(collection: string, id: int, tail: string)
    ensures ItemPath(collection, id, tail) == ItemPath(collection, id, "") + tail
  {
    assert collection + IntToString(id) + "/" + "" == collection + IntToString(id) + "/";
  }

  /** Different ids give different detail endpoints. */
  lemma DetailEndpointsInjective(a: int, b: int)
    requires a != b
    ensures SupplierDetail(a) != SupplierDetail(b)
    ensures ProductDetail(a) != ProductDetail(b)
    ensures StockDetail(a) != StockDetail(b)
    ensures MovementDetail(a) != MovementDetail(b)
    ensures MarkNotificationRead(a) != MarkNotificationRead(b)
  {
    if SupplierDetail(a) == SupplierDetail(b) { ItemPathInjective(Suppliers, a, b, ""); }
    if ProductDetail(a) == ProductDetail(b) { ItemPathInjective(Products, a, b, ""); }
    if StockDetail(a) == StockDetail(b) { ItemPathInjective(Stocks, a, b, ""); }
    if MovementDetail(a) == MovementDetail(b) { ItemPathInjective(StockMovements, a, b, ""); }
    if MarkNotificationRead(a) == MarkNotificationRead(b) {
      ItemPathInjective(Notifications, a, b, "mark_as_read/");
    }
  }

  /**
   * No record's detail endpoint is one of the fixed action endpoints under the same
   * collection: a rendered id starts with a digit or '-', an action name with a letter.
   */
  lemma DetailNeverHitsAnAction(id: int)
    ensures StockDetail(id) != LowStock && StockDetail(id) != HighStock
    ensures MovementDetail(id) != DailySummary && MovementDetail(id) != WeeklySummary
    ensures ItemPath(UploadHistory, id, "") != FailedUploads
    ensures ItemPath(UploadHistory, id, "") != PendingUploads
    ensures ItemPath(Notifications, id, "") != UnreadNotifications
    ensures ItemPath(Notifications, id, "") != MarkAllNotificationsRead
  {
    var s := IntToString(id);
    assert s[0] == '-' || '0' <= s[0] <= '9';
    assert StockDetail(id)[|Stocks|] == s[0];
    assert MovementDetail(id)[|StockMovements|] == s[0];
    assert ItemPath(UploadHistory, id, "")[|UploadHistory|] == s[0];
    assert ItemPath(Notifications, id, "")[|Notifications|] == s[0];
  }
}

/**
 * The Svelte stock store. Its state is a value held in a `writable`; every async method
 * replaces it first with a loading state and then with the outcome of the request. Each
 * replacement is a pure transition here, and the class applies them in the same order.
 */
module StockStore {
  import opened Wrappers
  import opened Json
  import opened Entities
  import opened Ledger
  import opened Transport

  datatype StockStoreState = StockStoreState(
    products: seq<Product>,
    stocks: seq<Stock>,
    movements: seq<StockMovement>,
    lowStockItems: seq<Stock>,
    highStockItems: seq<Stock>,
    dailySummary: Json,
    weeklySummary: Json,
    loading: bool,
    error: Option<string>)

  /** `initialState`. */
  const InitialState := StockStoreState([], [], [], [], [], JNull, JNull, false, None)

  /** `update(state => ({ ...state, loading: true, error: null }))`, the first step of every operation. */
  function Begin(s: StockStoreState): (r: StockStoreState)
    ensures r.loading && r.error == None
    ensures r.(loading := s.loading, error := s.error) == s
  {
    s.(loading := true, error := None)
  }

  /** The failure step of every operation: the error text is stored and nothing else but `loading` changes. */
  function Fail(s: StockStoreState, e: AxiosError, fallback: string): (r: StockStoreState)
    ensures !r.loading && r.error == Some(AxiosErrorText(e, fallback))
    ensures r.(loading := s.loading, error := s.error) == s
  {
    s.(loading := false, error := Some(AxiosErrorText(e, fallback)))
  }

  /** The success step of `fetchStocks`: the response replaces the stocks, and the alert lists are derived from it. */
  function StocksLoaded(s: StockStoreState, stocks: seq<Stock>): (r: StockStoreState)
    ensures !r.loading && r.error == s.error
    ensures r.stocks == stocks
    ensures forall x :: x in r.lowStockItems <==> x in stocks && IsLow(x)
    ensures forall x :: x in r.highStockItems <==> x in stocks && IsHigh(x)
    ensures r.lowStockItems == LowItems(stocks) && r.highStockItems == HighItems(stocks)
    ensures r.products == s.products && r.movements == s.movements
    ensures r.dailySummary == s.dailySummary && r.weeklySummary == s.weeklySummary
  {
    s.(stocks := stocks, lowStockItems := LowItems(stocks), highStockItems := HighItems(stocks),
       loading := false)
  }

  /**
   * The success step of `createStockMovement`: the server's movement goes last, the matching
   * stocks move by the client delta, and the alert lists stay as they were.
   */
  function MovementCreated(s: StockStoreState, m: StockMovement): (r: StockStoreState)
    ensures !r.loading && r.error == s.error
    ensures r.movements == s.movements + [m]
    ensures |r.stocks| == |s.stocks|
    ensures forall i :: 0 <= i < |s.stocks| ==>
      r.stocks[i].quantity == s.stocks[i].quantity + (if s.stocks[i].product == m.product then ClientDelta(m) else 0)
    ensures forall i :: 0 <= i < |s.stocks| && s.stocks[i].product != m.product ==> r.stocks[i] == s.stocks[i]
    ensures r.lowStockItems == s.lowStockItems && r.highStockItems == s.highStockItems
    ensures r.products == s.products
  {
    s.(movements := s.movements + [m], stocks := ApplyMovement(s.stocks, m), loading := false)
  }

  /** The stocks a movement leaves behind are `ApplyMovement` of the old ones. */
  lemma MovementCreatedUsesClientRule(s: StockStoreState, m: StockMovement)
    ensures MovementCreated(s, m).stocks == ApplyMovement(s.stocks, m)
  {
    var r := MovementCreated(s, m).stocks;
    var t := ApplyMovement(s.stocks, m);
    assert |r| == |t|;
    forall i | 0 <= i < |r| ensures r[i] == t[i] {
    }
  }

  /** An ADJUST movement changes no stock on this client either. */
  lemma AdjustLeavesStocks(s: StockStoreState, m: StockMovement)
    requires m.movementType == Adjust
    ensures MovementCreated(s, m).stocks == s.stocks
  {
    MovementCreatedUsesClientRule(s, m);
    AdjustIsNoOpOnClient(s.stocks, m);
  }

  /** The store a failure leaves has the same lists as before the operation began. */
  lemma FailureKeepsLists(s: StockStoreState, e: AxiosError, fallback: string)
    ensures var r := Fail(Begin(s), e, fallback);
      r.products == s.products && r.stocks == s.stocks && r.movements == s.movements &&
      r.lowStockItems == s.lowStockItems && r.highStockItems == s.highStockItems &&
      !r.loading && r.error.Some?
  {
  }

  const FetchProductsFallback := "Failed to fetch products"
  const FetchStocksFallback := "Failed to fetch stocks"
  const FetchMovementsFallback := "Failed to fetch stock movements"
  const CreateMovementFallback := "Failed to create stock movement"
  const DailySummaryFallback := "Failed to fetch daily summary"
  const WeeklySummaryFallback := "Failed to fetch weekly summary"

  /** The `writable` behind `stockStore`; each method is one call of the store's API after its request ended with `outcome`. */
  class StockStore {
    var state: StockStoreState

    constructor ()
      ensures state == InitialState
    {
      state := InitialState;
    }

    method FetchProducts(outcome: Result<seq<Product>, AxiosError>)
      modifies this
      ensures outcome.Ok? ==> state == Begin(old(state)).(products := outcome.value, loading := false)
      ensures outcome.Err? ==> state == Fail(Begin(old(state)), outcome.error, FetchProductsFallback)
    {
      state := Begin(state);
      match outcome
      case Ok(products) => state := state.(products := products, loading := false);
      case Err(e) => state := Fail(state, e, FetchProductsFallback);
    }

    method FetchStocks(outcome: Result<seq<Stock>, AxiosError>)
      modifies this
      ensures outcome.Ok? ==> state == StocksLoaded(Begin(old(state)), outcome.value)
      ensures outcome.Err? ==> state == Fail(Begin(old(state)), outcome.error, FetchStocksFallback)
    {
      state := Begin(state);
      match outcome
      case Ok(stocks) => state := StocksLoaded(state, stocks);
      case Err(e) => state := Fail(state, e, FetchStocksFallback);
    }

    method FetchStockMovements(outcome: Result<seq<StockMovement>, AxiosError>)
      modifies this
      ensures outcome.Ok? ==> state == Begin(old(state)).(movements := outcome.value, loading := false)
      ensures outcome.Err? ==> state == Fail(Begin(old(state)), outcome.error, FetchMovementsFallback)
    {
      state := Begin(state);
      match outcome
      case Ok(movements) => state := state.(movements := movements, loading := false);
      case Err(e) => state := Fail(state, e, FetchMovementsFallback);
    }

    method CreateStockMovement(outcome: Result<StockMovement, AxiosError>)
      modifies this
      ensures outcome.Ok? ==> state == MovementCreated(Begin(old(state)), outcome.value)
      ensures outcome.Err? ==> state == Fail(Begin(old(state)), outcome.error, CreateMovementFallback)
    {
      state := Begin(state);
      match outcome
      case Ok(m) => state := MovementCreated(state, m);
      case Err(e) => state := Fail(state, e, CreateMovementFallback);
    }

    method FetchDailySummary(outcome: Result<Json, AxiosError>)
      modifies this
      ensures outcome.Ok? ==> state == Begin(old(state)).(dailySummary := outcome.value, loading := false)
      ensures outcome.Err? ==> state == Fail(Begin(old(state)), outcome.error, DailySummaryFallback)
    {
      state := Begin(state);
      match outcome
      case Ok(summary) => state := state.(dailySummary := summary, loading := false);
      case Err(e) => state := Fail(state, e, DailySummaryFallback);
    }

    method FetchWeeklySummary(outcome: Result<Json, AxiosError>)
      modifies this
      ensures outcome.Ok? ==> state == Begin(old(state)).(weeklySummary := outcome.value, loading := false)
      ensures outcome.Err? ==> state == Fail(Begin(old(state)), outcome.error, WeeklySummaryFallback)
    {
      state := Begin(state);
      match outcome
      case Ok(summary) => state := state.(weeklySummary := summary, loading := false);
      case Err(e) => state := Fail(state, e, WeeklySummaryFallback);
    }

    /** `reset: () => set(initialState)`. */
    method Reset()
      modifies this
      ensures state == InitialState
    {
      state := InitialState;
    }
  }
}

/**
 * The Redux stock slice of the React client: its state, its two plain reducers, the reducer
 * cases of its five async thunks, and the thunks' rejection values. Immer lets the reducers
 * assign fields of the state in place; here the state is a class and each case a method.
 */
module StockSlice {
  import opened Wrappers
  import opened Text
  import opened Json
  import opened Entities
  import opened Ledger
  import opened Transport

  /** The text a rejected case stores when the rejection carries no value. */
  const DefaultRejection := "An error occurred"

  /** The fallback each thunk passes to `rejectWithValue`. */
  const FetchStocksFallback := "Failed to fetch stocks"
  const FetchMovementsFallback := "Failed to fetch stock movements"
  const CreateMovementFallback := "Failed to create stock movement"
  const DailySummaryFallback := "Failed to fetch daily summary"
  const WeeklySummaryFallback := "Failed to fetch weekly summary"

  /**
   * The text a rejected case stores when the thunk rejected through `rejectWithValue`: the
   * thunk's value always wins over the reducer's default, because it is never empty.
   */
  lemma ThunkRejectionWins(e: AxiosError, fallback: string)
    requires fallback != ""
    ensures OrElse(Some(RejectValue(e, fallback)), DefaultRejection) == RejectValue(e, fallback)
    ensures RejectValue(e, fallback) != DefaultRejection || e.dataMessage == Some(DefaultRejection) ||
            fallback == DefaultRejection
  {
  }

  class StockState {
    var stocks: seq<Stock>
    var movements: seq<StockMovement>
    var lowStockItems: seq<Stock>
    var highStockItems: seq<Stock>
    var dailySummary: Json
    var weeklySummary: Json
    var loading: bool
    var error: Option<string>

    /** `initialState`: empty lists, null summaries, not loading, no error. */
    predicate IsInitial()
      reads this
    {
      stocks == [] && movements == [] && lowStockItems == [] && highStockItems == [] &&
      dailySummary == JNull && weeklySummary == JNull && !loading && error == None
    }

    constructor ()
      ensures IsInitial()
    {
      stocks, movements, lowStockItems, highStockItems := [], [], [], [];
      dailySummary, weeklySummary := JNull, JNull;
      loading, error := false, None;
    }

    /** `resetState: () => initialState`. */
    method ResetState()
      modifies this
      ensures IsInitial()
    {
      stocks, movements, lowStockItems, highStockItems := [], [], [], [];
      dailySummary, weeklySummary := JNull, JNull;
      loading, error := false, None;
    }

    /** `clearError`: only `error` changes. */
    method ClearError()
      modifies this`error
      ensures error == None
    {
      error := None;
    }

    /** Every `pending` case of the five thunks: start loading and forget the last error. */
    method Pending()
      modifies this`loading, this`error
      ensures loading && error == None
    {
      loading := true;
      error := None;
    }

    /** Every `rejected` case: stop loading and keep the rejection value, or the default. */
    method Rejected(payload: Option<string>)
      modifies this`loading, this`error
      ensures !loading
      ensures error == Some(OrElse(payload, DefaultRejection))
    {
      loading := false;
      error := Some(OrElse(payload, DefaultRejection));
    }

    /** `fetchStocks.fulfilled`: the payload replaces the stocks, and the alert lists are derived from it. */
    method FetchStocksFulfilled(payload: seq<Stock>)
      modifies this`loading, this`stocks, this`lowStockItems, this`highStockItems
      ensures !loading
      ensures stocks == payload
      ensures lowStockItems == LowItems(payload) && highStockItems == HighItems(payload)
    {
      loading := false;
      stocks := payload;
      lowStockItems := LowItems(payload);
      highStockItems := HighItems(payload);
    }

    /** `fetchStockMovements.fulfilled`. */
    method FetchMovementsFulfilled(payload: seq<StockMovement>)
      modifies this`loading, this`movements
      ensures !loading && movements == payload
    {
      loading := false;
      movements := payload;
    }

    /**
     * `createStockMovement.fulfilled`: the movement is appended, and the quantities of the
     * matching stocks move by the client delta. The alert lists are not recomputed.
     */
    method CreateMovementFulfilled(payload: StockMovement)
      modifies this`loading, this`movements, this`stocks
      ensures !loading
      ensures movements == old(movements) + [payload]
      ensures stocks == ApplyMovement(old(stocks), payload)
    {
      loading := false;
      movements := movements + [payload];
      stocks := ApplyMovement(stocks, payload);
    }

    /** `fetchDailySummary.fulfilled`. */
    method DailySummaryFulfilled(payload: Json)
      modifies this`loading, this`dailySummary
      ensures !loading && dailySummary == payload
    {
      loading := false;
      dailySummary := payload;
    }

    /** `fetchWeeklySummary.fulfilled`. */
    method WeeklySummaryFulfilled(payload: Json)
      modifies this`loading, this`weeklySummary
      ensures !loading && weeklySummary == payload
    {
      loading := false;
      weeklySummary := payload;
    }

    // ---- a whole dispatch of each thunk: pending, then fulfilled or rejected ----

    /** `dispatch(fetchStocks())` once the request has ended with `outcome`. */
    method FetchStocks(outcome: Result<seq<Stock>, AxiosError>)
      modifies this
      ensures !loading
      ensures outcome.Ok? ==> (stocks == outcome.value && error == None &&
        lowStockItems == LowItems(outcome.value) && highStockItems == HighItems(outcome.value))
      ensures outcome.Err? ==> (stocks == old(stocks) && lowStockItems == old(lowStockItems) &&
        highStockItems == old(highStockItems) &&
        error == Some(RejectValue(outcome.error, FetchStocksFallback)))
      ensures movements == old(movements) && dailySummary == old(dailySummary) &&
        weeklySummary == old(weeklySummary)
    {
      Pending();
      if outcome.Ok? {
        FetchStocksFulfilled(outcome.value);
      } else {
        Rejected(Some(RejectValue(outcome.error, FetchStocksFallback)));
      }
    }

    /** `dispatch(fetchStockMovements())`. */
    method FetchStockMovements(outcome: Result<seq<StockMovement>, AxiosError>)
      modifies this
      ensures !loading
      ensures outcome.Ok? ==> (movements == outcome.value && error == None)
      ensures outcome.Err? ==> (movements == old(movements) &&
        error == Some(RejectValue(outcome.error, FetchMovementsFallback)))
      ensures stocks == old(stocks) && lowStockItems == old(lowStockItems) &&
        highStockItems == old(highStockItems) && dailySummary == old(dailySummary) &&
        weeklySummary == old(weeklySummary)
    {
      Pending();
      match outcome
      case Ok(payload) => FetchMovementsFulfilled(payload);
      case Err(e) => Rejected(Some(RejectValue(e, FetchMovementsFallback)));
    }

    /** `dispatch(createStockMovement(data))`; on success `outcome` holds the server's movement. */
    method CreateStockMovement(outcome: Result<StockMovement, AxiosError>)
      modifies this
      ensures !loading
      ensures outcome.Ok? ==> (error == None &&
        movements == old(movements) + [outcome.value] &&
        |movements| == |old(movements)| + 1 &&
        stocks == ApplyMovement(old(stocks), outcome.value) && |stocks| == |old(stocks)|)
      ensures outcome.Err? ==> (movements == old(movements) && stocks == old(stocks) &&
        error == Some(RejectValue(outcome.error, CreateMovementFallback)))
      ensures lowStockItems == old(lowStockItems) && highStockItems == old(highStockItems)
      ensures dailySummary == old(dailySummary) && weeklySummary == old(weeklySummary)
    {
      Pending();
      match outcome
      case Ok(payload) => CreateMovementFulfilled(payload);
      case Err(e) => Rejected(Some(RejectValue(e, CreateMovementFallback)));
    }

    /** `dispatch(fetchDailySummary())`. */
    method FetchDailySummary(outcome: Result<Json, AxiosError>)
      modifies this
      ensures !loading
      ensures outcome.Ok? ==> (dailySummary == outcome.value && error == None)
      ensures outcome.Err? ==> (dailySummary == old(dailySummary) &&
        error == Some(RejectValue(outcome.error, DailySummaryFallback)))
      ensures stocks == old(stocks) && movements == old(movements) &&
        lowStockItems == old(lowStockItems) && highStockItems == old(highStockItems) &&
        weeklySummary == old(weeklySummary)
    {
      Pending();
      match outcome
      case Ok(payload) => DailySummaryFulfilled(payload);
      case Err(e) => Rejected(Some(RejectValue(e, DailySummaryFallback)));
    }

    /** `dispatch(fetchWeeklySummary())`. */
    method FetchWeeklySummary(outcome: Result<Json, AxiosError>)
      modifies this
      ensures !loading
      ensures outcome.Ok? ==> (weeklySummary == outcome.value && error == None)
      ensures outcome.Err? ==> (weeklySummary == old(weeklySummary) &&
        error == Some(RejectValue(outcome.error, WeeklySummaryFallback)))
      ensures stocks == old(stocks) && movements == old(movements) &&
        lowStockItems == old(lowStockItems) && highStockItems == old(highStockItems) &&
        dailySummary == old(dailySummary)
    {
      Pending();
      match outcome
      case Ok(payload) => WeeklySummaryFulfilled(payload);
      case Err(e) => Rejected(Some(RejectValue(e, WeeklySummaryFallback)));
    }
  }
}

/**
 * The stock-level rules every implementation repeats: a record is low when its quantity is at
 * or below the minimum threshold, high when at or above the maximum threshold, and low wins
 * when both hold; and the client-side reconciliation that both front-end stores apply when the
 * server confirms a movement (IN adds, OUT subtracts, ADJUST changes nothing).
 */
module Ledger {
  import opened Entities
  import opened Lists

  predicate IsLow(s: Stock) {
    s.quantity <= s.minimumThreshold
  }

  predicate IsHigh(s: Stock) {
    s.quantity >= s.maximumThreshold
  }

  /** `stocks.filter(stock => stock.quantity <= stock.minimum_threshold)`. */
  function LowItems(stocks: seq<Stock>): (r: seq<Stock>)
    ensures forall x :: x in r <==> x in stocks && IsLow(x)
    ensures forall x :: multiset(r)[x] == if IsLow(x) then multiset(stocks)[x] else 0
    ensures IsSubsequence(r, stocks)
  {
    FilterIsSubsequence(stocks, IsLow);
    forall x ensures multiset(Filter(stocks, IsLow))[x] == if IsLow(x) then multiset(stocks)[x] else 0 {
      FilterMultiplicity(stocks, IsLow, x);
    }
    Filter(stocks, IsLow)
  }

  /** `stocks.filter(stock => stock.quantity >= stock.maximum_threshold)`. */
  function HighItems(stocks: seq<Stock>): (r: seq<Stock>)
    ensures forall x :: x in r <==> x in stocks && IsHigh(x)
    ensures forall x :: multiset(r)[x] == if IsHigh(x) then multiset(stocks)[x] else 0
    ensures IsSubsequence(r, stocks)
  {
    FilterIsSubsequence(stocks, IsHigh);
    forall x ensures multiset(Filter(stocks, IsHigh))[x] == if IsHigh(x) then multiset(stocks)[x] else 0 {
      FilterMultiplicity(stocks, IsHigh, x);
    }
    Filter(stocks, IsHigh)
  }

  /** The three stock levels a record can be in. */
  datatype Level = Low | High | Normal

  /** The classifier: LOW before HIGH before NORMAL. */
  function Classify(quantity: int, minimumThreshold: int, maximumThreshold: int): (l: Level)
    ensures l == Low <==> quantity <= minimumThreshold
    ensures l == High <==> minimumThreshold < quantity && quantity >= maximumThreshold
    ensures l == Normal <==> minimumThreshold < quantity < maximumThreshold
  {
    if quantity <= minimumThreshold then Low
    else if quantity >= maximumThreshold then High
    else Normal
  }

  function LevelOf(s: Stock): Level {
    Classify(s.quantity, s.minimumThreshold, s.maximumThreshold)
  }

  predicate IsNormal(s: Stock) {
    LevelOf(s) == Normal
  }

  predicate IsHighOnly(s: Stock) {
    LevelOf(s) == High
  }

  /**
   * When the thresholds cross (`maximum <= quantity <= minimum`) a record is in both the low
   * and the high list, although it classifies as LOW.
   */
  lemma CrossedThresholdsInBothLists(stocks: seq<Stock>, s: Stock)
    requires s in stocks
    requires s.maximumThreshold <= s.quantity <= s.minimumThreshold
    ensures s in LowItems(stocks) && s in HighItems(stocks)
    ensures LevelOf(s) == Low
  {
  }

  /** With well-formed thresholds (`minimum < maximum`) the low and high lists never share a record. */
  lemma WellFormedListsDisjoint(stocks: seq<Stock>)
    requires forall i :: 0 <= i < |stocks| ==> stocks[i].minimumThreshold < stocks[i].maximumThreshold
    ensures forall x :: x in LowItems(stocks) ==> x !in HighItems(stocks)
  {
  }

  /**
   * Every record is counted exactly once among LOW, HIGH and NORMAL: the three classes partition
   * the list (the low list, the high-but-not-low records and the normal records).
   */
  lemma {:induction false} LevelsPartition(stocks: seq<Stock>)
    ensures |LowItems(stocks)| + |Filter(stocks, IsHighOnly)| + |Filter(stocks, IsNormal)| == |stocks|
    decreases |stocks|
  {
    if stocks != [] {
      LevelsPartition(stocks[1..]);
    }
  }

  // ---- client-side reconciliation after a confirmed movement ----

  /** The signed change a confirmed movement makes on the client: `IN ? q : OUT ? -q : 0`. */
  function ClientDelta(m: StockMovement): (d: int)
    ensures m.movementType == In ==> d == m.quantity
    ensures m.movementType == Out ==> d == -m.quantity
    ensures m.movementType == Adjust ==> d == 0
  {
    match m.movementType
    case In => m.quantity
    case Out => -m.quantity
    case Adjust => 0
  }

  /**
   * `stocks.map(stock => stock.product === m.product ? {...stock, quantity: stock.quantity + delta} : stock)`.
   */
  function ApplyMovement(stocks: seq<Stock>, m: StockMovement): (r: seq<Stock>)
    ensures |r| == |stocks|
    ensures forall i :: 0 <= i < |stocks| && stocks[i].product == m.product ==>
      r[i] == stocks[i].(quantity := stocks[i].quantity + ClientDelta(m))
    ensures forall i :: 0 <= i < |stocks| && stocks[i].product != m.product ==> r[i] == stocks[i]
  {
    seq(|stocks|, i requires 0 <= i < |stocks| =>
      if stocks[i].product == m.product
      then stocks[i].(quantity := stocks[i].quantity + ClientDelta(m))
      else stocks[i])
  }

  /** An ADJUST movement leaves every client-side quantity as it was. */
  lemma AdjustIsNoOpOnClient(stocks: seq<Stock>, m: StockMovement)
    requires m.movementType == Adjust
    ensures ApplyMovement(stocks, m) == stocks
  {
    var r := ApplyMovement(stocks, m);
    forall i | 0 <= i < |stocks| ensures r[i] == stocks[i] {
    }
  }

  /** The client enforces no lower bound: an OUT larger than a matching stock leaves it negative. */
  lemma OutCanGoNegativeOnClient(stocks: seq<Stock>, m: StockMovement, i: int)
    requires 0 <= i < |stocks| && stocks[i].product == m.product
    requires m.movementType == Out && m.quantity > stocks[i].quantity
    ensures ApplyMovement(stocks, m)[i].quantity == stocks[i].quantity - m.quantity < 0
  {
  }

  /** Applying the same confirmed movement twice counts it twice: the reconciliation is not idempotent. */
  lemma ApplyTwiceCountsTwice(stocks: seq<Stock>, m: StockMovement, i: int)
    requires 0 <= i < |stocks| && stocks[i].product == m.product
    ensures ApplyMovement(ApplyMovement(stocks, m), m)[i].quantity == stocks[i].quantity + 2 * ClientDelta(m)
  {
  }

  /**
   * An IN that lifts a low record above its minimum takes it out of the low level, while a
   * `lowStockItems` stored at the last fetch still holds the record: the stored lists go stale.
   */
  lemma MovementMakesLowListStale(stocks: seq<Stock>, m: StockMovement, i: int)
    requires 0 <= i < |stocks| && stocks[i].product == m.product && m.movementType == In
    requires stocks[i].quantity <= stocks[i].minimumThreshold < stocks[i].quantity + m.quantity
    ensures stocks[i] in LowItems(stocks)
    ensures !IsLow(ApplyMovement(stocks, m)[i]) && ApplyMovement(stocks, m)[i] !in LowItems(ApplyMovement(stocks, m))
  {
  }
}

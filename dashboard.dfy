/** The dashboard: the two alert counts, the four summary cards, and the two top-5 alert lists. */
module DashboardPage {
  import opened Entities
  import opened Lists
  import opened Ledger

  /** `lowStockCount`. */
  function LowStockCount(stocks: seq<Stock>): (n: nat)
    ensures n == |IndexSet(stocks, IsLow)|
    ensures n <= |stocks|
  {
    FilterLengthIsCount(stocks, IsLow);
    |LowItems(stocks)|
  }

  /** `highStockCount`. */
  function HighStockCount(stocks: seq<Stock>): (n: nat)
    ensures n == |IndexSet(stocks, IsHigh)|
    ensures n <= |stocks|
  {
    FilterLengthIsCount(stocks, IsHigh);
    |HighItems(stocks)|
  }

  /** With well-formed thresholds the two counts never exceed the number of stocks together. */
  lemma CountsBoundedWhenWellFormed(stocks: seq<Stock>)
    requires forall i :: 0 <= i < |stocks| ==> stocks[i].minimumThreshold < stocks[i].maximumThreshold
    ensures LowStockCount(stocks) + HighStockCount(stocks) <= |stocks|
  {
    LevelsPartition(stocks);
    assert Filter(stocks, IsHigh) == Filter(stocks, IsHighOnly) by {
      SameFilter(stocks);
    }
  }

  lemma {:induction false} SameFilter(stocks: seq<Stock>)
    requires forall i :: 0 <= i < |stocks| ==> stocks[i].minimumThreshold < stocks[i].maximumThreshold
    ensures Filter(stocks, IsHigh) == Filter(stocks, IsHighOnly)
    decreases |stocks|
  {
    if stocks != [] {
      SameFilter(stocks[1..]);
    }
  }

  datatype Card = Card(title: string, value: nat)

  /** `summaryCards`, in order. */
  function SummaryCards(products: seq<Product>, suppliers: seq<Supplier>, stocks: seq<Stock>): (cards: seq<Card>)
    ensures |cards| == 4
    ensures cards[0] == Card("Total Products", |products|) && cards[1] == Card("Total Suppliers", |suppliers|)
    ensures cards[2].title == "Low Stock Items" && cards[2].value == |IndexSet(stocks, IsLow)|
    ensures cards[3].title == "High Stock Items" && cards[3].value == |IndexSet(stocks, IsHigh)|
  {
    [Card("Total Products", |products|), Card("Total Suppliers", |suppliers|),
     Card("Low Stock Items", LowStockCount(stocks)), Card("High Stock Items", HighStockCount(stocks))]
  }

  /** The Low Stock Alerts panel: the first five low stocks, in order. */
  function LowStockAlerts(stocks: seq<Stock>): (r: seq<Stock>)
    ensures |r| <= 5 && |r| <= |LowItems(stocks)| && r == LowItems(stocks)[..|r|]
    ensures |r| == if |LowItems(stocks)| < 5 then |LowItems(stocks)| else 5
    ensures forall x :: x in r ==> x in stocks && IsLow(x)
  {
    var r := Take(LowItems(stocks), 5);
    assert forall x :: x in r ==> x in LowItems(stocks);
    r
  }

  /** The High Stock Alerts panel: the first five high stocks, in order. */
  function HighStockAlerts(stocks: seq<Stock>): (r: seq<Stock>)
    ensures |r| <= 5 && |r| <= |HighItems(stocks)| && r == HighItems(stocks)[..|r|]
    ensures |r| == if |HighItems(stocks)| < 5 then |HighItems(stocks)| else 5
    ensures forall x :: x in r ==> x in stocks && IsHigh(x)
  {
    var r := Take(HighItems(stocks), 5);
    assert forall x :: x in r ==> x in HighItems(stocks);
    r
  }

  /** The panel lists every low stock when there are at most five, and the card counts them. */
  lemma FewAlertsAllShown(stocks: seq<Stock>)
    requires |LowItems(stocks)| <= 5
    ensures LowStockAlerts(stocks) == LowItems(stocks)
    ensures |LowStockAlerts(stocks)| == SummaryCards([], [], stocks)[2].value
  {
    FilterLengthIsCount(stocks, IsLow);
  }
}

/**
 * The tables of the Django back end that the stock tasks and the product views read and
 * write, held as sequences in table order. Foreign keys are plain ids, and the names a
 * query joins in with `select_related` are carried on the row. A movement's id is its
 * position plus one, as an auto-increment key on a table without deletions gives.
 */
module Db {
  import opened Wrappers
  import opened Entities
  import opened Lists

  /** A product row; the two-place decimal `unit_price` is held in hundredths. */
  datatype ProductRow = ProductRow(id: int, name: string, sku: string, barcode: string, unitPrice: int, isActive: bool)

  datatype MovementRow = MovementRow(
    product: int,
    productName: string,
    movementType: MovementType,
    quantity: int,
    referenceNumber: string,
    performedBy: Option<int>,
    notes: string)

  datatype AlertKind = StockLow | StockHigh

  /** A notification row; its `user` column is not nullable. */
  datatype NotificationRow = NotificationRow(kind: AlertKind, message: string, user: int)

  datatype PriceChange = PriceChange(product: int, priceType: string, oldPrice: int, newPrice: int, changedBy: Option<int>)

  datatype UploadStatus = Pending | Processing | Completed | Failed

  datatype UploadRecord = UploadRecord(status: UploadStatus, recordsProcessed: int, recordsFailed: int, errorMessage: string)

  /** The model defaults of a new stock record's thresholds. */
  const DefaultMinimumThreshold := 10
  const DefaultMaximumThreshold := 100

  class Database {
    var products: seq<ProductRow>
    var stocks: seq<Stock>
    var movements: seq<MovementRow>
    var notifications: seq<NotificationRow>
    var priceHistory: seq<PriceChange>
    var uploads: map<int, UploadRecord>

    constructor (products: seq<ProductRow>, stocks: seq<Stock>, movements: seq<MovementRow>)
      ensures this.products == products && this.stocks == stocks && this.movements == movements
      ensures notifications == [] && priceHistory == [] && uploads == map[]
    {
      this.products := products;
      this.stocks := stocks;
      this.movements := movements;
      notifications := [];
      priceHistory := [];
      uploads := map[];
    }
  }

  function StockProduct(s: Stock): int { s.product }
  function ProductSku(p: ProductRow): string { p.sku }

  /** The three outcomes of a `get` on a column that is not unique. */
  datatype Lookup = Found(index: nat) | NoneFound | Several

  /** `Stock.objects.get(product=id)`: the one stock of the product, or the reason there is none. */
  function StockFor(stocks: seq<Stock>, product: int): (r: Lookup)
    ensures r.Found? ==> r.index < |stocks| && stocks[r.index].product == product
    ensures r.Found? ==> forall j :: 0 <= j < |stocks| && j != r.index ==> stocks[j].product != product
    ensures r.NoneFound? <==> forall j :: 0 <= j < |stocks| ==> stocks[j].product != product
    ensures r.Several? <==>
      exists i, j :: 0 <= i < j < |stocks| && stocks[i].product == product && stocks[j].product == product
  {
    match FirstIndex(stocks, StockProduct, product)
    case None => NoneFound
    case Some(i) =>
      match FirstIndex(stocks[i + 1..], StockProduct, product)
      case None =>
        assert forall j :: i < j < |stocks| ==> stocks[j] == stocks[i + 1..][j - i - 1];
        Found(i)
      case Some(j) =>
        assert stocks[i + 1 + j] == stocks[i + 1..][j];
        Several
  }

  /** A product with exactly one stock is found at that stock. */
  lemma OnlyStockIsFound(stocks: seq<Stock>, product: int, j: nat)
    requires j < |stocks| && stocks[j].product == product
    requires forall k :: 0 <= k < |stocks| && k != j ==> stocks[k].product != product
    ensures StockFor(stocks, product) == Found(j)
  {
  }

  /** `product.stock_records.first()`: the first stock of the product in table order. */
  function FirstStock(stocks: seq<Stock>, product: int): (r: Option<nat>)
    ensures r.Some? ==> r.value < |stocks| && stocks[r.value].product == product
    ensures r.Some? ==> forall j :: 0 <= j < r.value ==> stocks[j].product != product
    ensures r.None? <==> forall j :: 0 <= j < |stocks| ==> stocks[j].product != product
  {
    FirstIndex(stocks, StockProduct, product)
  }

  /** Where exactly one stock exists, `get` and `first()` agree. */
  lemma GetAgreesWithFirst(stocks: seq<Stock>, product: int)
    requires StockFor(stocks, product).Found?
    ensures FirstStock(stocks, product) == Some(StockFor(stocks, product).index)
  {
  }
}

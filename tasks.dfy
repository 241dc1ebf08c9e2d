/**
 * The Celery tasks of the back end, as operations on the `Database` tables: applying a
 * recorded movement to the stock it concerns (with the single threshold notification it may
 * raise), the per-row loop of a stock file upload, and the periodic threshold scan.
 * `transaction.atomic` is modelled as "the tables are as before when the task fails".
 */
module Tasks {
  import opened Wrappers
  import opened Text
  import opened Entities
  import opened Lists
  import opened Ledger
  import opened Db

  datatype TaskError =
    | MovementDoesNotExist
    | StockDoesNotExist
    | MultipleStocksReturned
    | InsufficientStock
    | IntegrityError
    | UploadDoesNotExist
    | NameError

  /** The message of the `ValueError` an OUT larger than the stock raises. */
  const InsufficientStockMessage := "Insufficient stock quantity"

  /**
   * The new quantity of a stock after a movement: IN adds, OUT subtracts when enough is there
   * and is refused otherwise, ADJUST sets the movement's quantity as the new absolute value.
   */
  function NewQuantity(current: int, t: MovementType, q: int): (r: Result<int, TaskError>)
    ensures r.Err? <==> t == Out && current < q
    ensures r.Err? ==> r.error == InsufficientStock
    ensures r.Ok? && t == Out ==> r.value + q == current && r.value >= 0
    ensures r.Ok? && t == In ==> r.value - current == q
    ensures t == Adjust ==> r == Ok(q)
  {
    match t
    case In => Ok(current + q)
    case Out => if current >= q then Ok(current - q) else Err(InsufficientStock)
    case Adjust => Ok(q)
  }

  /** For IN and OUT the task and the two clients agree on the new quantity, when the task accepts. */
  lemma TaskAgreesWithClientOnInOut(s: Stock, m: StockMovement)
    requires s.product == m.product && m.movementType != Adjust
    requires NewQuantity(s.quantity, m.movementType, m.quantity).Ok?
    ensures NewQuantity(s.quantity, m.movementType, m.quantity).value == ApplyMovement([s], m)[0].quantity
  {
  }

  /**
   * ADJUST means something else on each side: the task makes the movement's quantity the new
   * stock, the clients leave the stock as it was, and the two differ unless the quantity was
   * already the stock's.
   */
  lemma AdjustDivergesFromClient(s: Stock, m: StockMovement)
    requires s.product == m.product && m.movementType == Adjust
    ensures NewQuantity(s.quantity, Adjust, m.quantity) == Ok(m.quantity)
    ensures ApplyMovement([s], m)[0].quantity == s.quantity
    ensures m.quantity != s.quantity ==>
      NewQuantity(s.quantity, Adjust, m.quantity).value != ApplyMovement([s], m)[0].quantity
  {
  }

  /** The one notification an adjusted stock may raise: LOW before HIGH, none in between. */
  function AlertFor(q: int, minimumThreshold: int, maximumThreshold: int): (a: Option<AlertKind>)
    ensures a == Some(StockLow) <==> Classify(q, minimumThreshold, maximumThreshold) == Low
    ensures a == Some(StockHigh) <==> Classify(q, minimumThreshold, maximumThreshold) == High
    ensures a == None <==> Classify(q, minimumThreshold, maximumThreshold) == Normal
  {
    if q <= minimumThreshold then Some(StockLow)
    else if q >= maximumThreshold then Some(StockHigh)
    else None
  }

  /** The word that opens an alert of `kind`. */
  function KindWord(kind: AlertKind): (w: string)
    ensures |w| >= 1 && (w[0] == 'L' <==> kind == StockLow)
  {
    if kind == StockLow then "Low" else "High"
  }

  /** The text between the kind word and the product's name. */
  const AlertInfix := " stock alert for "

  /** The text between the product's name and the quantity. */
  const QuantityInfix := ". Current quantity: "

  /**
   * `f'Low stock alert for {name}. Current quantity: {q}'`, and the same with `High`: the
   * message opens with the kind's word, carries the name after the fixed text, and ends with
   * the quantity in decimal.
   */
  function AlertMessage(kind: AlertKind, name: string, q: int): (msg: string)
    ensures var w := KindWord(kind);
      |msg| == |w| + |AlertInfix| + |name| + |QuantityInfix| + |IntToString(q)| &&
      msg[..|w|] == w &&
      msg[|w| + |AlertInfix|..|w| + |AlertInfix| + |name|] == name &&
      msg[|msg| - |IntToString(q)|..] == IntToString(q)
  {
    var w := KindWord(kind);
    FivePieces(w, AlertInfix, name, QuantityInfix, IntToString(q));
    w + AlertInfix + name + QuantityInfix + IntToString(q)
  }

  /** Where the first, third and last of five concatenated texts sit. */
  lemma FivePieces(a: string, b: string, c: string, d: string, e: string)
    ensures var m := a + b + c + d + e;
      |m| == |a| + |b| + |c| + |d| + |e| &&
      m[..|a|] == a && m[|a| + |b|..|a| + |b| + |c|] == c && m[|m| - |e|..] == e
  {
    var m := a + b + c + d + e;
    assert m == a + (b + c + d + e);
    assert m == (a + b) + c + (d + e);
    assert m == (a + b + c + d) + e;
  }

  /** The message of an alert gives back its kind and, for a known name, its quantity. */
  lemma {:induction false} AlertMessageReadsBack(k1: AlertKind, k2: AlertKind, name: string, a: int, b: int)
    requires AlertMessage(k1, name, a) == AlertMessage(k2, name, b)
    ensures k1 == k2 && a == b
  {
    var m := AlertMessage(k1, name, a);
    assert m[0] == KindWord(k1)[0] by { assert m[..|KindWord(k1)|] == KindWord(k1); }
    assert m[0] == KindWord(k2)[0] by { assert m[..|KindWord(k2)|] == KindWord(k2); }
    var w := KindWord(k1);
    var fixed := |w| + |AlertInfix| + |name| + |QuantityInfix|;
    var sa, sb := IntToString(a), IntToString(b);
    assert |sa| == |m| - fixed == |sb|;
    assert sa == m[|m| - |sa|..] == sb;
    IntToStringInjective(a, b);
  }

  /** What a successful adjustment does: the stock at `index` gets `quantity`, and `alert` is created if present. */
  datatype Effect = Effect(index: nat, quantity: int, alert: Option<NotificationRow>)

  /** `process_stock_adjustment(movement_id)` on the tables as they were when the task started. */
  function Adjustment(movements: seq<MovementRow>, stocks: seq<Stock>, movementId: int): (r: Result<Effect, TaskError>)
    ensures r == Err(MovementDoesNotExist) <==> !(1 <= movementId <= |movements|)
    ensures r.Ok? ==> 1 <= movementId <= |movements| && r.value.index < |stocks|
    ensures r.Ok? ==> StockFor(stocks, movements[movementId - 1].product) == Found(r.value.index)
    ensures r.Ok? ==> (var m, s := movements[movementId - 1], stocks[r.value.index];
      NewQuantity(s.quantity, m.movementType, m.quantity) == Ok(r.value.quantity) &&
      (r.value.alert.Some? <==> LevelOf(s.(quantity := r.value.quantity)) != Normal) &&
      (r.value.alert.Some? ==> m.performedBy == Some(r.value.alert.value.user)))
    ensures r.Ok? && r.value.alert.Some? ==> (var m, s := movements[movementId - 1], stocks[r.value.index];
      var kind := r.value.alert.value.kind;
      Some(kind) == AlertFor(r.value.quantity, s.minimumThreshold, s.maximumThreshold) &&
      r.value.alert.value.message == AlertMessage(kind, m.productName, r.value.quantity))
    ensures 1 <= movementId <= |movements| ==> (var m := movements[movementId - 1];
      match StockFor(stocks, m.product)
      case NoneFound => r == Err(StockDoesNotExist)
      case Several => r == Err(MultipleStocksReturned)
      case Found(i) =>
        var q := NewQuantity(stocks[i].quantity, m.movementType, m.quantity);
        (q.Err? ==> r == Err(q.error)) &&
        (q.Ok? ==> (r.Ok? <==>
          AlertFor(q.value, stocks[i].minimumThreshold, stocks[i].maximumThreshold).None? || m.performedBy.Some?)) &&
        (r.Err? && q.Ok? ==> r == Err(IntegrityError)))
  {
    if !(1 <= movementId <= |movements|) then Err(MovementDoesNotExist)
    else
      var m := movements[movementId - 1];
      match StockFor(stocks, m.product)
      case NoneFound => Err(StockDoesNotExist)
      case Several => Err(MultipleStocksReturned)
      case Found(i) =>
        match NewQuantity(stocks[i].quantity, m.movementType, m.quantity)
        case Err(e) => Err(e)
        case Ok(q) =>
          match AlertFor(q, stocks[i].minimumThreshold, stocks[i].maximumThreshold)
          case None => Ok(Effect(i, q, None))
          case Some(kind) =>
            if m.performedBy.None? then Err(IntegrityError)
            else Ok(Effect(i, q, Some(NotificationRow(kind, AlertMessage(kind, m.productName, q), m.performedBy.value))))
  }

  /** An OUT larger than the stock is refused. */
  lemma UnderflowIsRefused(movements: seq<MovementRow>, stocks: seq<Stock>, movementId: int)
    requires 1 <= movementId <= |movements|
    requires StockFor(stocks, movements[movementId - 1].product).Found?
    requires movements[movementId - 1].movementType == Out
    requires movements[movementId - 1].quantity > stocks[StockFor(stocks, movements[movementId - 1].product).index].quantity
    ensures Adjustment(movements, stocks, movementId) == Err(InsufficientStock)
  {
  }

  /**
   * A threshold alert for a movement nobody performed cannot be stored (the notification's
   * user is required), so the whole adjustment, the stock update included, is rolled back.
   */
  lemma AlertWithoutPerformerRollsBack(movements: seq<MovementRow>, stocks: seq<Stock>, movementId: int)
    requires 1 <= movementId <= |movements|
    requires StockFor(stocks, movements[movementId - 1].product).Found?
    requires movements[movementId - 1].performedBy.None?
    requires (var m, s := movements[movementId - 1], stocks[StockFor(stocks, movements[movementId - 1].product).index];
      var q := NewQuantity(s.quantity, m.movementType, m.quantity);
      q.Ok? && LevelOf(s.(quantity := q.value)) != Normal)
    ensures Adjustment(movements, stocks, movementId) == Err(IntegrityError)
  {
  }

  /** When the thresholds cross, a stock at or below the minimum raises only the LOW alert. */
  lemma LowAlertWins(movements: seq<MovementRow>, stocks: seq<Stock>, movementId: int)
    requires Adjustment(movements, stocks, movementId).Ok?
    requires var e := Adjustment(movements, stocks, movementId).value;
      e.quantity <= stocks[e.index].minimumThreshold
    ensures var e := Adjustment(movements, stocks, movementId).value;
      e.alert.Some? && e.alert.value.kind == StockLow
  {
  }

  /** Above the minimum and at or above the maximum, the alert is HIGH and names the product and the new quantity. */
  lemma HighAlertAboveMaximum(movements: seq<MovementRow>, stocks: seq<Stock>, movementId: int)
    requires Adjustment(movements, stocks, movementId).Ok?
    requires var e := Adjustment(movements, stocks, movementId).value;
      stocks[e.index].minimumThreshold < e.quantity && e.quantity >= stocks[e.index].maximumThreshold
    ensures var e := Adjustment(movements, stocks, movementId).value;
      e.alert.Some? && e.alert.value.kind == StockHigh &&
      e.alert.value.message == AlertMessage(StockHigh, movements[movementId - 1].productName, e.quantity)
  {
    var e := Adjustment(movements, stocks, movementId).value;
    assert AlertFor(e.quantity, stocks[e.index].minimumThreshold, stocks[e.index].maximumThreshold) == Some(StockHigh);
  }

  /** The task, with the tables as a `Database`; `Err` leaves every table as it was. */
  method ProcessStockAdjustment(db: Database, movementId: int) returns (r: Result<(), TaskError>)
    modifies db`stocks, db`notifications
    ensures var a := Adjustment(old(db.movements), old(db.stocks), movementId);
      a.Err? ==> r == Err(a.error) && db.stocks == old(db.stocks) && db.notifications == old(db.notifications)
    ensures var a := Adjustment(old(db.movements), old(db.stocks), movementId);
      a.Ok? ==> (r == Ok(()) &&
        db.stocks == old(db.stocks)[a.value.index := old(db.stocks)[a.value.index].(quantity := a.value.quantity)] &&
        db.notifications == old(db.notifications) + (if a.value.alert.Some? then [a.value.alert.value] else []))
  {
    if !(1 <= movementId <= |db.movements|) {
      return Err(MovementDoesNotExist);
    }
    var movement := db.movements[movementId - 1];
    var lookup := StockFor(db.stocks, movement.product);
    if lookup.NoneFound? {
      return Err(StockDoesNotExist);
    } else if lookup.Several? {
      return Err(MultipleStocksReturned);
    }
    var i := lookup.index;
    var stock := db.stocks[i];
    var q := NewQuantity(stock.quantity, movement.movementType, movement.quantity);
    if q.Err? {
      return Err(q.error);
    }
    var saved := db.stocks;
    stock := stock.(quantity := q.value);
    db.stocks := db.stocks[i := stock];
    var alert := AlertFor(stock.quantity, stock.minimumThreshold, stock.maximumThreshold);
    if alert.Some? {
      if movement.performedBy.None? {
        db.stocks := saved;
        return Err(IntegrityError);
      }
      db.notifications := db.notifications +
        [NotificationRow(alert.value, AlertMessage(alert.value, movement.productName, stock.quantity), movement.performedBy.value)];
    }
    r := Ok(());
  }

  // ---- process_stock_file_upload: the per-row loop ----

  /** One row of the uploaded sheet: a SKU, the quantity as `int()` reads it (if it can), and the location cell if the column exists. */
  datatype UploadRow = UploadRow(sku: string, quantity: Option<int>, location: Option<string>)

  /** The tables the loop writes and its two counters. */
  datatype UploadLedger = UploadLedger(stocks: seq<Stock>, movements: seq<MovementRow>, processed: nat, failed: nat)

  /** `f'FILE-UPLOAD-{upload_history_id}'`. */
  function UploadReference(uploadId: int): string { "FILE-UPLOAD-" + IntToString(uploadId) }

  /** Two uploads never share a reference, so each movement names the upload it came from. */
  lemma UploadReferenceNamesUpload(a: int, b: int)
    requires UploadReference(a) == UploadReference(b)
    ensures a == b
  {
    assert UploadReference(a)[|"FILE-UPLOAD-"|..] == IntToString(a);
    assert UploadReference(b)[|"FILE-UPLOAD-"|..] == IntToString(b);
    IntToStringInjective(a, b);
  }

  const UploadNotes := "Updated via file upload"
  const DefaultLocation := "Default"

  /** The ADJUST movement a processed row records. */
  function UploadMovement(p: ProductRow, q: int, uploadId: int): (m: MovementRow)
    ensures m.product == p.id && m.movementType == Adjust && m.quantity == q && m.performedBy.None?
    ensures m.referenceNumber == UploadReference(uploadId)
  {
    MovementRow(p.id, p.name, Adjust, q, UploadReference(uploadId), None, UploadNotes)
  }

  /**
   * One iteration: find the product by SKU, `update_or_create` its stock with the row's
   * quantity and location, record the movement, and count the row; any failure on the way
   * counts the row as failed and writes nothing.
   */
  function UploadStep(products: seq<ProductRow>, st: UploadLedger, row: UploadRow, uploadId: int): (r: UploadLedger)
    ensures r.processed + r.failed == st.processed + st.failed + 1
    ensures r.failed == st.failed + 1 ==> r.stocks == st.stocks && r.movements == st.movements
    ensures r.processed == st.processed + 1 ==> (
      var pi := FirstIndex(products, ProductSku, row.sku);
      pi.Some? && row.quantity.Some? &&
      r.movements == st.movements + [UploadMovement(products[pi.value], row.quantity.value, uploadId)])
    ensures r.processed == st.processed + 1 ==> (
      var p, q := products[FirstIndex(products, ProductSku, row.sku).value], row.quantity.value;
      var loc := row.location.GetOr(DefaultLocation);
      match StockFor(st.stocks, p.id)
      case Found(i) => r.stocks == st.stocks[i := st.stocks[i].(quantity := q, location := loc)]
      case NoneFound =>
        r.stocks == st.stocks + [Stock(|st.stocks| + 1, p.id, p.name, q, loc, DefaultMinimumThreshold, DefaultMaximumThreshold)]
      case Several => false)
  {
    match FirstIndex(products, ProductSku, row.sku)
    case None => st.(failed := st.failed + 1)
    case Some(pi) =>
      if row.quantity.None? then st.(failed := st.failed + 1)
      else
        var p, q, loc := products[pi], row.quantity.value, row.location.GetOr(DefaultLocation);
        var movements := st.movements + [UploadMovement(p, q, uploadId)];
        match StockFor(st.stocks, p.id)
        case Several => st.(failed := st.failed + 1)
        case NoneFound =>
          var created := Stock(|st.stocks| + 1, p.id, p.name, q, loc, DefaultMinimumThreshold, DefaultMaximumThreshold);
          UploadLedger(st.stocks + [created], movements, st.processed + 1, st.failed)
        case Found(i) =>
          UploadLedger(st.stocks[i := st.stocks[i].(quantity := q, location := loc)], movements, st.processed + 1, st.failed)
  }

  /**
   * `update_or_create` leaves the row's product with exactly one stock, holding the row's
   * quantity and location, and no other product's stock changes.
   */
  lemma UploadRowLeavesOneStock(products: seq<ProductRow>, st: UploadLedger, row: UploadRow, uploadId: int)
    requires UploadStep(products, st, row, uploadId).processed == st.processed + 1
    ensures var r, p := UploadStep(products, st, row, uploadId), products[FirstIndex(products, ProductSku, row.sku).value];
      StockFor(r.stocks, p.id).Found? &&
      r.stocks[StockFor(r.stocks, p.id).index].quantity == row.quantity.value &&
      r.stocks[StockFor(r.stocks, p.id).index].location == row.location.GetOr(DefaultLocation) &&
      forall k :: 0 <= k < |st.stocks| && st.stocks[k].product != p.id ==> r.stocks[k] == st.stocks[k]
  {
    var r, p := UploadStep(products, st, row, uploadId), products[FirstIndex(products, ProductSku, row.sku).value];
    match StockFor(st.stocks, p.id)
    case Found(i) =>
      assert r.stocks == st.stocks[i := st.stocks[i].(quantity := row.quantity.value, location := row.location.GetOr(DefaultLocation))];
      OnlyStockIsFound(r.stocks, p.id, i);
    case NoneFound =>
      assert r.stocks[..|st.stocks|] == st.stocks && r.stocks[|st.stocks|].product == p.id;
      OnlyStockIsFound(r.stocks, p.id, |st.stocks|);
  }

  /** The loop over a prefix of the rows. */
  function UploadFold(products: seq<ProductRow>, start: UploadLedger, rows: seq<UploadRow>, uploadId: int): (r: UploadLedger)
    ensures r.processed >= start.processed && r.failed >= start.failed
    ensures |r.stocks| >= |start.stocks| && |r.movements| >= |start.movements|
    decreases |rows|
  {
    if rows == [] then start
    else UploadStep(products, UploadFold(products, start, rows[..|rows| - 1], uploadId), rows[|rows| - 1], uploadId)
  }

  /** Every row is counted exactly once, as processed or as failed. */
  lemma {:induction false} UploadCountsAddUp(products: seq<ProductRow>, start: UploadLedger, rows: seq<UploadRow>, uploadId: int)
    ensures var r := UploadFold(products, start, rows, uploadId);
      r.processed + r.failed == start.processed + start.failed + |rows|
    decreases |rows|
  {
    if rows != [] {
      UploadCountsAddUp(products, start, rows[..|rows| - 1], uploadId);
    }
  }

  /**
   * The movements the loop records are one per processed row, each an ADJUST tagged with the
   * upload's reference and performed by nobody; the movements that were there stay.
   */
  lemma {:induction false} UploadMovementsTagged(products: seq<ProductRow>, start: UploadLedger, rows: seq<UploadRow>, uploadId: int)
    ensures var r := UploadFold(products, start, rows, uploadId);
      r.processed >= start.processed &&
      |r.movements| == |start.movements| + (r.processed - start.processed) &&
      r.movements[..|start.movements|] == start.movements &&
      forall k :: |start.movements| <= k < |r.movements| ==>
        r.movements[k].movementType == Adjust && r.movements[k].referenceNumber == UploadReference(uploadId) &&
        r.movements[k].performedBy.None?
    decreases |rows|
  {
    if rows != [] {
      var prev := UploadFold(products, start, rows[..|rows| - 1], uploadId);
      UploadMovementsTagged(products, start, rows[..|rows| - 1], uploadId);
      var r := UploadStep(products, prev, rows[|rows| - 1], uploadId);
      if r.processed == prev.processed + 1 {
        assert r.movements[..|prev.movements|] == prev.movements;
        assert r.movements[..|start.movements|] == prev.movements[..|start.movements|];
      }
    }
  }

  /**
   * The task. A missing history record fails before anything is read; otherwise every row
   * is attempted, and the record gets the two counters and the COMPLETED status.
   */
  method ProcessStockFileUpload(db: Database, uploadId: int, rows: seq<UploadRow>) returns (r: Result<(nat, nat), TaskError>)
    modifies db`stocks, db`movements, db`uploads
    ensures uploadId !in old(db.uploads) ==> (r == Err(UploadDoesNotExist) &&
      db.stocks == old(db.stocks) && db.movements == old(db.movements) && db.uploads == old(db.uploads))
    ensures uploadId in old(db.uploads) ==> (
      var f := UploadFold(db.products, UploadLedger(old(db.stocks), old(db.movements), 0, 0), rows, uploadId);
      r == Ok((f.processed, f.failed)) && f.processed + f.failed == |rows| &&
      db.stocks == f.stocks && db.movements == f.movements &&
      db.uploads == old(db.uploads)[uploadId := old(db.uploads)[uploadId].(
        status := Completed, recordsProcessed := f.processed, recordsFailed := f.failed)])
  {
    if uploadId !in db.uploads {
      return Err(UploadDoesNotExist);
    }
    var processed, failed := ApplyUploadRows(db, uploadId, rows);
    db.uploads := db.uploads[uploadId := db.uploads[uploadId].(
      status := Completed, recordsProcessed := processed, recordsFailed := failed)];
    r := Ok((processed, failed));
  }

  /** The row loop of the upload task, inside its atomic block. */
  method ApplyUploadRows(db: Database, uploadId: int, rows: seq<UploadRow>) returns (processed: nat, failed: nat)
    modifies db`stocks, db`movements
    ensures UploadLedger(db.stocks, db.movements, processed, failed) ==
      UploadFold(db.products, UploadLedger(old(db.stocks), old(db.movements), 0, 0), rows, uploadId)
    ensures processed + failed == |rows|
  {
    ghost var start := UploadLedger(db.stocks, db.movements, 0, 0);
    processed, failed := 0, 0;
    for k := 0 to |rows|
      invariant UploadLedger(db.stocks, db.movements, processed, failed) == UploadFold(db.products, start, rows[..k], uploadId)
      invariant processed + failed == k
    {
      assert rows[..k + 1][..k] == rows[..k];
      var next := UploadStep(db.products, UploadLedger(db.stocks, db.movements, processed, failed), rows[k], uploadId);
      db.stocks := next.stocks;
      db.movements := next.movements;
      processed, failed := next.processed, next.failed;
    }
    assert rows[..|rows|] == rows;
  }

  // ---- check_stock_levels ----

  /** The notification the scan creates for one stock. */
  function AlertRow(kind: AlertKind, recipient: int, s: Stock): NotificationRow {
    NotificationRow(kind, AlertMessage(kind, s.productName, s.quantity), recipient)
  }

  /** The alert rows the scan creates for `stocks`, in order, all of one kind. */
  function ScanAlerts(stocks: seq<Stock>, kind: AlertKind, recipient: int): (r: seq<NotificationRow>)
    ensures |r| == |stocks|
    ensures forall k :: 0 <= k < |stocks| ==>
      r[k] == NotificationRow(kind, AlertMessage(kind, stocks[k].productName, stocks[k].quantity), recipient)
  {
    seq(|stocks|, k requires 0 <= k < |stocks| => AlertRow(kind, recipient, stocks[k]))
  }

  lemma ScanAlertsSnoc(stocks: seq<Stock>, k: nat, kind: AlertKind, recipient: int)
    requires k < |stocks|
    ensures ScanAlerts(stocks[..k + 1], kind, recipient) == ScanAlerts(stocks[..k], kind, recipient) +
      [NotificationRow(kind, AlertMessage(kind, stocks[k].productName, stocks[k].quantity), recipient)]
  {
    var a := ScanAlerts(stocks[..k + 1], kind, recipient);
    var b := ScanAlerts(stocks[..k], kind, recipient) + [AlertRow(kind, recipient, stocks[k])];
    assert |a| == |b|;
    forall i | 0 <= i < |a| ensures a[i] == b[i] {
      assert stocks[..k + 1][i] == stocks[i];
      if i < k {
        assert stocks[..k][i] == stocks[i];
        assert b[i] == ScanAlerts(stocks[..k], kind, recipient)[i];
      }
    }
  }

  /**
   * The scan as written: its first statement names `models`, which the module never imports,
   * so every run ends in a `NameError` before any table is touched.
   */
  method CheckStockLevelsAsWritten(db: Database) returns (r: Result<(), TaskError>)
    ensures r == Err(NameError)
  {
    r := Err(NameError);
  }

  /**
   * `stock.product.supplier.user if hasattr(stock.product.supplier, 'user') else None`: a
   * `Supplier` has no `user`, so the scan addresses every alert to nobody.
   */
  function SupplierUser(s: Stock): Option<int> { None }

  /**
   * The scan with `models` imported but its recipient as written: the first alert it creates
   * has no user, which the notification table refuses, so the scan fails with an
   * `IntegrityError` as soon as one stock is low or high, and stores nothing.
   */
  method CheckStockLevelsNullRecipient(db: Database) returns (r: Result<(), TaskError>)
    ensures r.Err? <==> LowItems(db.stocks) != [] || HighItems(db.stocks) != []
    ensures r.Err? ==> r.error == IntegrityError
  {
    var low, high := LowItems(db.stocks), HighItems(db.stocks);
    if low != [] && SupplierUser(low[0]).None? {
      return Err(IntegrityError);
    }
    if high != [] && SupplierUser(high[0]).None? {
      return Err(IntegrityError);
    }
    r := Ok(());
  }

  /**
   * The scan as intended: one LOW alert per stock at or below its minimum, then one HIGH
   * alert per stock at or above its maximum, addressed to `recipient` (the suppliers the
   * source tries to address have no user, and the notification's user is required).
   */
  method CheckStockLevels(db: Database, recipient: int)
    modifies db`notifications
    ensures db.notifications == old(db.notifications) +
      ScanAlerts(LowItems(db.stocks), StockLow, recipient) + ScanAlerts(HighItems(db.stocks), StockHigh, recipient)
  {
    CreateAlerts(db, LowItems(db.stocks), StockLow, recipient);
    CreateAlerts(db, HighItems(db.stocks), StockHigh, recipient);
  }

  /** One of the scan's two loops: an alert of `kind` for each of `selected`, in order. */
  method CreateAlerts(db: Database, selected: seq<Stock>, kind: AlertKind, recipient: int)
    modifies db`notifications
    ensures db.notifications == old(db.notifications) + ScanAlerts(selected, kind, recipient)
  {
    for k := 0 to |selected|
      invariant db.notifications == old(db.notifications) + ScanAlerts(selected[..k], kind, recipient)
    {
      ScanAlertsSnoc(selected, k, kind, recipient);
      db.notifications := db.notifications +
        [NotificationRow(kind, AlertMessage(kind, selected[k].productName, selected[k].quantity), recipient)];
    }
    assert selected[..|selected|] == selected;
  }

  /**
   * Unlike the adjustment task, the scan alerts a stock whose thresholds cross
   * (`maximum <= quantity <= minimum`) twice: once LOW and once HIGH.
   */
  lemma CrossedStockAlertedTwice(stocks: seq<Stock>, s: Stock, recipient: int)
    requires s in stocks && s.maximumThreshold <= s.quantity <= s.minimumThreshold
    ensures NotificationRow(StockLow, AlertMessage(StockLow, s.productName, s.quantity), recipient)
      in ScanAlerts(LowItems(stocks), StockLow, recipient)
    ensures NotificationRow(StockHigh, AlertMessage(StockHigh, s.productName, s.quantity), recipient)
      in ScanAlerts(HighItems(stocks), StockHigh, recipient)
    ensures AlertFor(s.quantity, s.minimumThreshold, s.maximumThreshold) == Some(StockLow)
  {
    var low, high := LowItems(stocks), HighItems(stocks);
    CrossedThresholdsInBothLists(stocks, s);
    var i :| 0 <= i < |low| && low[i] == s;
    var j :| 0 <= j < |high| && high[j] == s;
    assert ScanAlerts(low, StockLow, recipient)[i] == NotificationRow(StockLow, AlertMessage(StockLow, s.productName, s.quantity), recipient);
    assert ScanAlerts(high, StockHigh, recipient)[j] == NotificationRow(StockHigh, AlertMessage(StockHigh, s.productName, s.quantity), recipient);
  }
}

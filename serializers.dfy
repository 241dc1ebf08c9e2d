/**
 * The parts of the REST serializers with logic of their own: a product's `current_stock`,
 * the two validators of a product import request (with the request's defaults), and the
 * write-only password of an import configuration.
 */
module Serializers {
  import opened Wrappers
  import opened Json
  import opened Entities
  import opened Db

  /** `get_current_stock`: the quantity of the product's first stock record, or 0 without one. */
  function CurrentStock(stocks: seq<Stock>, product: int): (q: int)
    ensures (forall j :: 0 <= j < |stocks| ==> stocks[j].product != product) ==> q == 0
    ensures forall i :: (0 <= i < |stocks| && stocks[i].product == product &&
      (forall j :: 0 <= j < i ==> stocks[j].product != product)) ==> q == stocks[i].quantity
  {
    match FirstStock(stocks, product)
    case None => 0
    case Some(i) => stocks[i].quantity
  }

  /** Writing the product's first stock is what `current_stock` reads back. */
  lemma CurrentStockReadsFirstStock(stocks: seq<Stock>, product: int, q: int)
    requires FirstStock(stocks, product).Some?
    ensures var i := FirstStock(stocks, product).value;
      CurrentStock(stocks[i := stocks[i].(quantity := q)], product) == q
  {
    var i := FirstStock(stocks, product).value;
    var t := stocks[i := stocks[i].(quantity := q)];
    assert forall j :: 0 <= j < i ==> t[j].product != product;
    assert t[i].product == product && t[i].quantity == q;
  }

  // ---- ProductImportSerializer ----

  const RequiredMappingFields: seq<string> := ["name", "sku"]

  /** `field in value and value[field]`, with Python truthiness. */
  predicate Maps(mapping: map<string, Json>, field: string) {
    field in mapping && PyTruthy(mapping[field])
  }

  function RequiredMessage(field: string): string {
    "'" + field + "' is required in column mapping"
  }

  /** The loop over the required fields: the first one the mapping lacks, if any. */
  function FirstMissing(mapping: map<string, Json>, fields: seq<string>): (r: Option<string>)
    ensures r.None? <==> forall k :: 0 <= k < |fields| ==> Maps(mapping, fields[k])
    ensures r.Some? ==> r.value in fields && !Maps(mapping, r.value)
    ensures r.Some? ==> forall k :: 0 <= k < |fields| && fields[k] != r.value && !Maps(mapping, fields[k]) ==>
      exists l :: 0 <= l < k && fields[l] == r.value
    decreases |fields|
  {
    if fields == [] then None
    else if !Maps(mapping, fields[0]) then Some(fields[0])
    else
      var rest := FirstMissing(mapping, fields[1..]);
      assert forall k :: 1 <= k < |fields| ==> fields[k] == fields[1..][k - 1];
      rest
  }

  /** `validate_column_mapping`: accepted, unchanged, iff `name` and `sku` are mapped; `name` is reported first. */
  function ValidateColumnMapping(mapping: map<string, Json>): (r: Result<map<string, Json>, string>)
    ensures r.Ok? <==> Maps(mapping, "name") && Maps(mapping, "sku")
    ensures r.Ok? ==> r.value == mapping
    ensures !Maps(mapping, "name") ==> r == Err(RequiredMessage("name"))
    ensures Maps(mapping, "name") && !Maps(mapping, "sku") ==> r == Err(RequiredMessage("sku"))
  {
    match FirstMissing(mapping, RequiredMappingFields)
    case None => Ok(mapping)
    case Some(field) => Err(RequiredMessage(field))
  }

  const RowOrderMessage := "Data start row must be greater than header row"
  const DefaultHeaderRow := 0
  const DefaultDataStartRow := 1

  /** An import request as it arrives: the two row numbers may be omitted. */
  datatype ImportRequest = ImportRequest(headerRow: Option<int>, dataStartRow: Option<int>, columnMapping: map<string, Json>)

  datatype ValidatedImport = ValidatedImport(headerRow: int, dataStartRow: int, columnMapping: map<string, Json>)

  /**
   * `is_valid()`: the field validators (with the defaults filled in) run first, then
   * `validate`, which refuses a data start row at or above the header row.
   */
  function ValidateImport(req: ImportRequest): (r: Result<ValidatedImport, string>)
    ensures r.Ok? <==> (ValidateColumnMapping(req.columnMapping).Ok? &&
      req.headerRow.GetOr(DefaultHeaderRow) < req.dataStartRow.GetOr(DefaultDataStartRow))
    ensures r.Ok? ==> r.value.columnMapping == req.columnMapping && r.value.headerRow < r.value.dataStartRow
    ensures ValidateColumnMapping(req.columnMapping).Err? ==> r == Err(ValidateColumnMapping(req.columnMapping).error)
    ensures (ValidateColumnMapping(req.columnMapping).Ok? &&
      req.dataStartRow.GetOr(DefaultDataStartRow) <= req.headerRow.GetOr(DefaultHeaderRow)) ==> r == Err(RowOrderMessage)
  {
    match ValidateColumnMapping(req.columnMapping)
    case Err(e) => Err(e)
    case Ok(mapping) =>
      var h, d := req.headerRow.GetOr(DefaultHeaderRow), req.dataStartRow.GetOr(DefaultDataStartRow);
      if d <= h then Err(RowOrderMessage) else Ok(ValidatedImport(h, d, mapping))
  }

  /** Omitting both row numbers always satisfies the row rule. */
  lemma DefaultsSatisfyRowRule(mapping: map<string, Json>)
    requires Maps(mapping, "name") && Maps(mapping, "sku")
    ensures ValidateImport(ImportRequest(None, None, mapping)) == Ok(ValidatedImport(0, 1, mapping))
  {
  }

  /** Omitting only the data start row works only for a header row below 1. */
  lemma DefaultStartRowNeedsLowHeader(h: int, mapping: map<string, Json>)
    requires Maps(mapping, "name") && Maps(mapping, "sku")
    ensures ValidateImport(ImportRequest(Some(h), None, mapping)).Ok? <==> h < 1
  {
  }

  /** An accepted request leaves a non-negative offset from the first data row to the start row. */
  lemma AcceptedOffsetIsNatural(req: ImportRequest)
    requires ValidateImport(req).Ok?
    ensures ValidateImport(req).value.dataStartRow - ValidateImport(req).value.headerRow - 1 >= 0
  {
  }

  // ---- ImportConfigurationSerializer ----

  /** A stored configuration; the three timestamps are clock values (`last_run` may be unset). */
  datatype ImportConfiguration = ImportConfiguration(
    id: int, name: string, importType: string, host: string, port: Option<int>, username: string,
    password: string, remotePath: string, isActive: bool, schedule: string,
    lastRun: Option<int>, createdAt: int, updatedAt: int)

  function OptionalNumber(v: Option<int>): Json {
    if v.Some? then JNumber(v.value) else JNull
  }

  /**
   * The serialized configuration (`fields = '__all__'`): the id and every model field, each
   * once, except the write-only password.
   */
  function SerializeConfiguration(c: ImportConfiguration): (r: seq<(string, Json)>)
    ensures forall k :: 0 <= k < |r| ==> r[k].0 != "password"
    ensures |r| == 12
  {
    [("id", JNumber(c.id)), ("name", JString(c.name)), ("import_type", JString(c.importType)),
     ("host", JString(c.host)), ("port", OptionalNumber(c.port)), ("username", JString(c.username)),
     ("remote_path", JString(c.remotePath)), ("is_active", JBool(c.isActive)), ("schedule", JString(c.schedule)),
     ("last_run", OptionalNumber(c.lastRun)), ("created_at", JNumber(c.createdAt)), ("updated_at", JNumber(c.updatedAt))]
  }

  /** Each key carries the record's value for it; an unset `port` or `last_run` is `null`. */
  lemma ConfigurationValues(c: ImportConfiguration)
    ensures var r := SerializeConfiguration(c);
      ("id", JNumber(c.id)) in r && ("name", JString(c.name)) in r &&
      ("import_type", JString(c.importType)) in r && ("host", JString(c.host)) in r &&
      ("port", if c.port.Some? then JNumber(c.port.value) else JNull) in r &&
      ("username", JString(c.username)) in r && ("remote_path", JString(c.remotePath)) in r &&
      ("is_active", JBool(c.isActive)) in r && ("schedule", JString(c.schedule)) in r &&
      ("last_run", if c.lastRun.Some? then JNumber(c.lastRun.value) else JNull) in r &&
      ("created_at", JNumber(c.createdAt)) in r && ("updated_at", JNumber(c.updatedAt)) in r
  {
  }

  /** No key is serialized twice. */
  lemma ConfigurationKeysDistinct(c: ImportConfiguration)
    ensures var r := SerializeConfiguration(c);
      forall i, j :: 0 <= i < j < |r| ==> r[i].0 != r[j].0
  {
    var r := SerializeConfiguration(c);
    // Keys of equal length differ in their first letter.
    var lengths, initials := [2, 4, 11, 4, 4, 8, 11, 9, 8, 8, 10, 10], "inihpurislcu";
    assert forall k :: 0 <= k < 12 ==> |r[k].0| == lengths[k] && r[k].0[0] == initials[k];
    forall i, j | 0 <= i < j < |r| ensures r[i].0 != r[j].0 {
      assert lengths[i] != lengths[j] || initials[i] != initials[j];
    }
  }

  /** A written password is stored and never read back: the output does not depend on it. */
  lemma PasswordNeverRead(c: ImportConfiguration, password: string)
    ensures SerializeConfiguration(c.(password := password)) == SerializeConfiguration(c)
  {
  }

  /** The `IMPORT_TYPES` choices. */
  const ImportTypes := ["FTP", "SFTP", "SCRAPER"]

  /**
   * The writable fields of the serializer. `id`, `created_at` and `updated_at` are read-only,
   * and keys the serializer does not know are dropped, so a request body is read as a map
   * from these fields to the values it gives.
   */
  datatype ConfigField =
    Name | ImportType | Host | Port | Username | Password | RemotePath | IsActive | Schedule | LastRun

  /**
   * How the serializer's fields read one incoming value: the `CharField` built for the named
   * model field (with its own coercion, whitespace trimming, `blank` and `max_length` rules),
   * the nullable `IntegerField`, the `BooleanField` and the nullable `DateTimeField`. `None`
   * is a validation error. These rules belong to the framework, not to this code base, so they
   * are parameters.
   */
  datatype FieldReaders = FieldReaders(
    text: (ConfigField, Json) -> Option<string>,
    number: Json -> Option<Option<int>>,
    flag: Json -> Option<bool>,
    time: Json -> Option<Option<int>>)

  /** Whether the serializer field behind `f` reads `v`; `import_type` is a choice among `IMPORT_TYPES`. */
  predicate Reads(rd: FieldReaders, f: ConfigField, v: Json) {
    match f
    case Port => rd.number(v).Some?
    case IsActive => rd.flag(v).Some?
    case LastRun => rd.time(v).Some?
    case ImportType => v.JString? && v.s in ImportTypes
    case _ => rd.text(f, v).Some?
  }

  /** Every field the input gives is read by its serializer field. */
  predicate Readable(rd: FieldReaders, input: map<ConfigField, Json>) {
    forall f :: f in input ==> Reads(rd, f, input[f])
  }

  /** A full update must give the two fields without a default or `blank=True`; a partial one need not. */
  predicate HasRequired(input: map<ConfigField, Json>, partial: bool) {
    partial || (Name in input && ImportType in input)
  }

  function TextField(rd: FieldReaders, input: map<ConfigField, Json>, f: ConfigField, current: string): string {
    if f in input && rd.text(f, input[f]).Some? then rd.text(f, input[f]).value else current
  }

  /**
   * An update through the serializer (`PUT` when `partial` is false, `PATCH` when it is true),
   * saved at time `now`: rejected when a given field does not read or a full update lacks a
   * required field; otherwise every given field is stored as read, password included,
   * `updated_at` becomes `now`, and everything else keeps its value.
   */
  function WriteConfiguration(c: ImportConfiguration, input: map<ConfigField, Json>, rd: FieldReaders,
                              partial: bool, now: int): (r: Result<ImportConfiguration, string>)
    ensures r.Ok? <==> Readable(rd, input) && HasRequired(input, partial)
    ensures r.Ok? ==> r.value.id == c.id && r.value.createdAt == c.createdAt && r.value.updatedAt == now
  {
    if !Readable(rd, input) then Err("Invalid configuration")
    else if !HasRequired(input, partial) then Err("This field is required.")
    else
      assert forall f :: f in input ==> Reads(rd, f, input[f]);
      var port := if Port in input then rd.number(input[Port]).value else c.port;
      var active := if IsActive in input then rd.flag(input[IsActive]).value else c.isActive;
      var lastRun := if LastRun in input then rd.time(input[LastRun]).value else c.lastRun;
      var importType := if ImportType in input then input[ImportType].s else c.importType;
      Ok(c.(name := TextField(rd, input, Name, c.name), importType := importType,
            host := TextField(rd, input, Host, c.host), port := port,
            username := TextField(rd, input, Username, c.username),
            password := TextField(rd, input, Password, c.password),
            remotePath := TextField(rd, input, RemotePath, c.remotePath), isActive := active,
            schedule := TextField(rd, input, Schedule, c.schedule), lastRun := lastRun, updatedAt := now))
  }

  /** An accepted write stores each given field as its serializer field reads it. */
  lemma WriteStoresGivenFields(c: ImportConfiguration, input: map<ConfigField, Json>, rd: FieldReaders,
                               partial: bool, now: int)
    requires WriteConfiguration(c, input, rd, partial, now).Ok?
    ensures var w := WriteConfiguration(c, input, rd, partial, now).value;
      (Name in input ==> rd.text(Name, input[Name]) == Some(w.name)) &&
      (ImportType in input ==> input[ImportType] == JString(w.importType)) &&
      (Host in input ==> rd.text(Host, input[Host]) == Some(w.host)) &&
      (Port in input ==> rd.number(input[Port]) == Some(w.port)) &&
      (Username in input ==> rd.text(Username, input[Username]) == Some(w.username)) &&
      (Password in input ==> rd.text(Password, input[Password]) == Some(w.password)) &&
      (RemotePath in input ==> rd.text(RemotePath, input[RemotePath]) == Some(w.remotePath)) &&
      (IsActive in input ==> rd.flag(input[IsActive]) == Some(w.isActive)) &&
      (Schedule in input ==> rd.text(Schedule, input[Schedule]) == Some(w.schedule)) &&
      (LastRun in input ==> rd.time(input[LastRun]) == Some(w.lastRun))
  {
  }

  /** An accepted write keeps every field the input does not give. */
  lemma WriteKeepsOtherFields(c: ImportConfiguration, input: map<ConfigField, Json>, rd: FieldReaders,
                              partial: bool, now: int)
    requires WriteConfiguration(c, input, rd, partial, now).Ok?
    ensures var w := WriteConfiguration(c, input, rd, partial, now).value;
      (Name !in input ==> w.name == c.name) && (ImportType !in input ==> w.importType == c.importType) &&
      (Host !in input ==> w.host == c.host) && (Port !in input ==> w.port == c.port) &&
      (Username !in input ==> w.username == c.username) && (Password !in input ==> w.password == c.password) &&
      (RemotePath !in input ==> w.remotePath == c.remotePath) && (IsActive !in input ==> w.isActive == c.isActive) &&
      (Schedule !in input ==> w.schedule == c.schedule) && (LastRun !in input ==> w.lastRun == c.lastRun)
  {
  }

  /**
   * Whatever password an accepted write carries, the same write without it is accepted too,
   * and reading the configuration back shows exactly the same.
   */
  lemma WrittenPasswordStaysHidden(c: ImportConfiguration, input: map<ConfigField, Json>, rd: FieldReaders,
                                   partial: bool, now: int)
    requires WriteConfiguration(c, input, rd, partial, now).Ok?
    ensures WriteConfiguration(c, input - {Password}, rd, partial, now).Ok?
    ensures SerializeConfiguration(WriteConfiguration(c, input, rd, partial, now).value) ==
      SerializeConfiguration(WriteConfiguration(c, input - {Password}, rd, partial, now).value)
  {
    var rest := input - {Password};
    assert forall f :: f != Password ==> (f in rest <==> f in input) && (f in rest ==> rest[f] == input[f]);
    var a, b := WriteConfiguration(c, input, rd, partial, now).value, WriteConfiguration(c, rest, rd, partial, now).value;
    WriteStoresGivenFields(c, input, rd, partial, now);
    WriteStoresGivenFields(c, rest, rd, partial, now);
    WriteKeepsOtherFields(c, input, rd, partial, now);
    WriteKeepsOtherFields(c, rest, rd, partial, now);
    assert a == b.(password := a.password);
    PasswordNeverRead(b, a.password);
  }

  /** The `max_length` of each text field of the model. */
  function MaxLength(f: ConfigField): nat {
    match f
    case Name => 200
    case Host => 255
    case RemotePath => 255
    case _ => 100
  }

  /** Text readers that keep the model's limits: never longer than `max_length`, and `name` never blank. */
  ghost predicate KeepsLimits(rd: FieldReaders) {
    forall f, v :: rd.text(f, v).Some? ==>
      |rd.text(f, v).value| <= MaxLength(f) && (f == Name ==> rd.text(f, v).value != "")
  }

  /** The model's field limits on a stored configuration. */
  predicate WithinLimits(c: ImportConfiguration) {
    c.name != "" && |c.name| <= 200 && |c.importType| <= 10 && |c.host| <= 255 && |c.username| <= 100 &&
    |c.password| <= 100 && |c.remotePath| <= 255 && |c.schedule| <= 100
  }

  /** With readers that keep the limits, an accepted write keeps a configuration within them. */
  lemma WriteKeepsLimits(c: ImportConfiguration, input: map<ConfigField, Json>, rd: FieldReaders, partial: bool, now: int)
    requires WithinLimits(c) && KeepsLimits(rd)
    requires WriteConfiguration(c, input, rd, partial, now).Ok?
    ensures WithinLimits(WriteConfiguration(c, input, rd, partial, now).value)
  {
    var w := WriteConfiguration(c, input, rd, partial, now).value;
    WriteStoresGivenFields(c, input, rd, partial, now);
    WriteKeepsOtherFields(c, input, rd, partial, now);
    if ImportType in input {
      assert Reads(rd, ImportType, input[ImportType]);
      assert w.importType in ImportTypes;
    }
  }
}

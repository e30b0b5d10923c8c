/**
 * The audit log of copy requests (backend/maelstro/logging/psql_logger.py):
 * the rows of the `logs` table, the record assembled at the end of a
 * request, the insertion with an auto-incremented id, and the two listings,
 * newest first and paginated: one as column dictionaries, one as French
 * one-line summaries. The database itself is a sequence of rows in insertion
 * order; sessions and engines are not modelled.
 */
module AuditLog {
  import opened Wrappers
  import opened Json
  import opened Strings
  import Operations
  import Sequences

  /** One row of the `logs` table. Times are kept as their text; `details` is `JNull` for SQL NULL. */
  datatype Log = Log(
    id: nat,
    startTime: string,
    endTime: string,
    firstName: string,
    lastName: string,
    statusCode: int,
    datasetUuid: string,
    srcName: string,
    dstName: string,
    srcTitle: string,
    dstTitle: string,
    copyMeta: bool,
    copyLayers: bool,
    copyStyles: bool,
    details: Json)

  /** The columns of the table; `Name` gives the name each is listed under. */
  datatype ColumnName =
    | Id | StartTime | EndTime | FirstName | LastName | StatusCode | DatasetUuid
    | SrcName | DstName | SrcTitle | DstTitle | CopyMeta | CopyLayers | CopyStyles | Details
  {
    function Name(): string {
      match this
      case Id => "id"
      case StartTime => "start_time"
      case EndTime => "end_time"
      case FirstName => "first_name"
      case LastName => "last_name"
      case StatusCode => "status_code"
      case DatasetUuid => "dataset_uuid"
      case SrcName => "src_name"
      case DstName => "dst_name"
      case SrcTitle => "src_title"
      case DstTitle => "dst_title"
      case CopyMeta => "copy_meta"
      case CopyLayers => "copy_layers"
      case CopyStyles => "copy_styles"
      case Details => "details"
    }
  }

  /** The columns in declaration order. */
  const Columns: seq<ColumnName> := [
    Id, StartTime, EndTime, FirstName, LastName, StatusCode, DatasetUuid,
    SrcName, DstName, SrcTitle, DstTitle, CopyMeta, CopyLayers, CopyStyles, Details]

  /** `getattr(row, column)`. */
  function Column(row: Log, c: ColumnName): Json {
    match c
    case Id => JInt(row.id)
    case StartTime => JStr(row.startTime)
    case EndTime => JStr(row.endTime)
    case FirstName => JStr(row.firstName)
    case LastName => JStr(row.lastName)
    case StatusCode => JInt(row.statusCode)
    case DatasetUuid => JStr(row.datasetUuid)
    case SrcName => JStr(row.srcName)
    case DstName => JStr(row.dstName)
    case SrcTitle => JStr(row.srcTitle)
    case DstTitle => JStr(row.dstTitle)
    case CopyMeta => JBool(row.copyMeta)
    case CopyLayers => JBool(row.copyLayers)
    case CopyStyles => JBool(row.copyStyles)
    case Details => row.details
  }

  /** Every column is listed. */
  lemma AllColumnsListed()
    ensures forall c: ColumnName :: c in Columns
  {
    forall c: ColumnName
      ensures c in Columns
    {
      match c
      case Id => assert Columns[0] == c;
      case StartTime => assert Columns[1] == c;
      case EndTime => assert Columns[2] == c;
      case FirstName => assert Columns[3] == c;
      case LastName => assert Columns[4] == c;
      case StatusCode => assert Columns[5] == c;
      case DatasetUuid => assert Columns[6] == c;
      case SrcName => assert Columns[7] == c;
      case DstName => assert Columns[8] == c;
      case SrcTitle => assert Columns[9] == c;
      case DstTitle => assert Columns[10] == c;
      case CopyMeta => assert Columns[11] == c;
      case CopyLayers => assert Columns[12] == c;
      case CopyStyles => assert Columns[13] == c;
      case Details => assert Columns[14] == c;
    }
  }

  /**
   * `Log.to_dict(get_details)`: every column, except the details unless they
   * are asked for. The dictionary is keyed by column; its keys print as
   * their `Name`.
   */
  function ToDict(row: Log, getDetails: bool): (r: map<ColumnName, Json>)
    ensures forall c :: c in r <==> getDetails || c != Details
    ensures forall c :: c in r ==> r[c] == Column(row, c)
  {
    AllColumnsListed();
    map c | c in Columns && (getDetails || c != Details) :: Column(row, c)
  }

  /** Leaving the details out removes that one entry and nothing else. */
  lemma ToDictWithoutDetails(row: Log)
    ensures ToDict(row, false) == ToDict(row, true) - {Details}
  {
    var a, b := ToDict(row, false), ToDict(row, true) - {Details};
    assert forall c :: c in a <==> c in b;
  }

  function Text(d: map<ColumnName, Json>, c: ColumnName): Option<string> {
    if c in d && d[c].JStr? then Some(d[c].s) else None
  }

  function Number(d: map<ColumnName, Json>, c: ColumnName): Option<int> {
    if c in d && d[c].JInt? then Some(d[c].i) else None
  }

  function Flag(d: map<ColumnName, Json>, c: ColumnName): Option<bool> {
    if c in d && d[c].JBool? then Some(d[c].b) else None
  }

  /** Reading a row back from its full dictionary, each column with its own type. */
  function RowFromDict(d: map<ColumnName, Json>): Option<Log> {
    var id, status := Number(d, Id), Number(d, StatusCode);
    var start, end := Text(d, StartTime), Text(d, EndTime);
    var first, last := Text(d, FirstName), Text(d, LastName);
    var uuid, src, dst := Text(d, DatasetUuid), Text(d, SrcName), Text(d, DstName);
    var srcTitle, dstTitle := Text(d, SrcTitle), Text(d, DstTitle);
    var meta, layers, styles := Flag(d, CopyMeta), Flag(d, CopyLayers), Flag(d, CopyStyles);
    if && id.Some? && id.value >= 0 && status.Some? && start.Some? && end.Some? && first.Some? && last.Some?
       && uuid.Some? && src.Some? && dst.Some? && srcTitle.Some? && dstTitle.Some?
       && meta.Some? && layers.Some? && styles.Some? && Details in d
    then
      Some(Log(id.value, start.value, end.value, first.value, last.value, status.value, uuid.value,
               src.value, dst.value, srcTitle.value, dstTitle.value, meta.value, layers.value,
               styles.value, d[Details]))
    else None
  }

  /** A dictionary holding every column of a row gives that row back. */
  lemma RowFromColumns(d: map<ColumnName, Json>, row: Log)
    requires forall c :: c in d && d[c] == Column(row, c)
    ensures RowFromDict(d) == Some(row)
  {
    assert Number(d, Id) == Some(row.id) by { assert d[Id] == Column(row, Id); }
    assert Number(d, StatusCode) == Some(row.statusCode) by { assert d[StatusCode] == Column(row, StatusCode); }
    assert Text(d, StartTime) == Some(row.startTime) by { assert d[StartTime] == Column(row, StartTime); }
    assert Text(d, EndTime) == Some(row.endTime) by { assert d[EndTime] == Column(row, EndTime); }
    assert Text(d, FirstName) == Some(row.firstName) by { assert d[FirstName] == Column(row, FirstName); }
    assert Text(d, LastName) == Some(row.lastName) by { assert d[LastName] == Column(row, LastName); }
    assert Text(d, DatasetUuid) == Some(row.datasetUuid) by { assert d[DatasetUuid] == Column(row, DatasetUuid); }
    assert Text(d, SrcName) == Some(row.srcName) by { assert d[SrcName] == Column(row, SrcName); }
    assert Text(d, DstName) == Some(row.dstName) by { assert d[DstName] == Column(row, DstName); }
    assert Text(d, SrcTitle) == Some(row.srcTitle) by { assert d[SrcTitle] == Column(row, SrcTitle); }
    assert Text(d, DstTitle) == Some(row.dstTitle) by { assert d[DstTitle] == Column(row, DstTitle); }
    assert Flag(d, CopyMeta) == Some(row.copyMeta) by { assert d[CopyMeta] == Column(row, CopyMeta); }
    assert Flag(d, CopyLayers) == Some(row.copyLayers) by { assert d[CopyLayers] == Column(row, CopyLayers); }
    assert Flag(d, CopyStyles) == Some(row.copyStyles) by { assert d[CopyStyles] == Column(row, CopyStyles); }
    assert Details in d && d[Details] == row.details by { assert d[Details] == Column(row, Details); }
  }

  /** The dictionary with details loses nothing: the row can be read back from it. */
  lemma ToDictRoundTrip(row: Log)
    ensures RowFromDict(ToDict(row, true)) == Some(row)
  {
    RowFromColumns(ToDict(row, true), row);
  }

  /** The copy operations of `row_to_copy_operations`, in their fixed order. */
  function OperationNames(copyMeta: bool, copyLayers: bool, copyStyles: bool): (r: seq<string>)
    ensures "metadata" in r <==> copyMeta
    ensures "couches" in r <==> copyLayers
    ensures "styles" in r <==> copyStyles
    ensures forall i, j :: 0 <= i < j < |r| ==> Rank(r[i]) < Rank(r[j])
    ensures forall i :: 0 <= i < |r| ==> r[i] != []
  {
    (if copyMeta then ["metadata"] else [])
    + (if copyLayers then ["couches"] else [])
    + (if copyStyles then ["styles"] else [])
  }

  /** The position of an operation in the fixed order metadata, couches, styles. */
  function Rank(name: string): nat {
    if name == "metadata" then 0 else if name == "couches" then 1 else 2
  }

  /** `row_to_copy_operations(row)`: the enabled operations joined by ", ". */
  function CopyOperations(row: Log): string {
    Join(OperationNames(row.copyMeta, row.copyLayers, row.copyStyles), ", ")
  }

  /** Joining a non-empty list of non-empty pieces gives a non-empty string. */
  lemma {:induction false} JoinNonEmpty(parts: seq<string>, sep: string)
    requires parts != [] && parts[0] != []
    ensures Join(parts, sep) != []
  {
    if |parts| > 1 {
      assert Join(parts, sep) == parts[0] + sep + Join(parts[1..], sep);
      assert |Join(parts, sep)| >= |parts[0]|;
    }
  }

  /** The operations text is empty exactly when no copy was requested. */
  lemma CopyOperationsEmpty(row: Log)
    ensures CopyOperations(row) == [] <==> !row.copyMeta && !row.copyLayers && !row.copyStyles
  {
    var names := OperationNames(row.copyMeta, row.copyLayers, row.copyStyles);
    if names != [] {
      JoinNonEmpty(names, ", ");
    }
  }

  /** The verdict of a row: "succes" for status 200, "echec " (padded to the same width) otherwise. */
  function Verdict(statusCode: int): string {
    if statusCode == 200 then "succes" else "echec "
  }

  /** The head of a `format_logs` line: the time stamp and the verdict. */
  function Stamp(row: Log): string {
    "[" + row.startTime + "]: <" + Verdict(row.statusCode) + "> "
  }

  /** The middle of a line: who copied what from where to where. */
  function Summary(row: Log): string {
    row.firstName + " " + row.lastName + " "
    + "copie " + row.srcName + " - \"" + row.srcTitle + "\" "
    + "vers " + row.dstName + " - \"" + row.dstTitle + "\" "
  }

  /** The line `format_logs` prints for one row. */
  function FormatRow(row: Log): string {
    Line(Stamp(row), Summary(row), CopyOperations(row))
  }

  /** A line assembled from its head, its middle and the operations. */
  function Line(stamp: string, summary: string, operations: string): string {
    stamp + (summary + Parenthesized(operations))
  }

  function Parenthesized(s: string): string {
    "(" + s + ")"
  }

  /** The stamp reads "succes" exactly when the status was 200. */
  lemma StampVerdict(row: Log)
    ensures row.statusCode == 200 <==> "[" + row.startTime + "]: <succes>" <= Stamp(row)
  {
    var open := "[" + row.startTime + "]: <";
    var head := open + "succes>";
    assert Stamp(row) == open + (Verdict(row.statusCode) + "> ");
    assert Stamp(row)[|open|] == Verdict(row.statusCode)[0];
    if row.statusCode == 200 {
      assert Stamp(row) == head + " ";
    }
  }

  /** A prefix of a prefix is a prefix. */
  lemma PrefixOfPrefix(a: string, b: string, c: string)
    requires |a| <= |b| && b <= c
    ensures a <= c <==> a <= b
  {
    assert c[..|a|] == b[..|a|];
  }

  /** A line starts with its time stamp and reads "succes" exactly when the status was 200. */
  lemma FormatRowVerdict(row: Log)
    ensures row.statusCode == 200 <==> "[" + row.startTime + "]: <succes>" <= FormatRow(row)
  {
    var stamp := Stamp(row);
    StampVerdict(row);
    LineStartsWithStamp(stamp, Summary(row), CopyOperations(row));
    PrefixOfPrefix("[" + row.startTime + "]: <succes>", stamp, FormatRow(row));
  }

  /** A line ends with the requested operations between parentheses. */
  lemma FormatRowOperations(row: Log)
    ensures EndsWith(FormatRow(row), Parenthesized(CopyOperations(row)))
  {
    LineEndsWithOperations(Stamp(row), Summary(row), CopyOperations(row));
  }

  lemma LineStartsWithStamp(stamp: string, summary: string, operations: string)
    ensures stamp <= Line(stamp, summary, operations)
  {
    Sequences.PrefixOfConcat(stamp, summary + Parenthesized(operations));
  }

  lemma LineEndsWithOperations(stamp: string, summary: string, operations: string)
    ensures EndsWith(Line(stamp, summary, operations), Parenthesized(operations))
  {
    Sequences.EndsWithPiece(stamp, summary, Parenthesized(operations));
  }

  /** Ids in insertion order strictly increase: the table's primary key is auto-incremented. */
  ghost predicate IdsIncreasing(table: seq<Log>) {
    forall i, j :: 0 <= i < j < |table| ==> table[i].id < table[j].id
  }

  /** `order_by(Log.id.desc())`, on a table whose ids increase in insertion order. */
  function NewestFirst(table: seq<Log>): (r: seq<Log>)
    ensures |r| == |table|
    ensures forall i :: 0 <= i < |r| ==> r[i] == table[|table| - 1 - i]
  {
    seq(|table|, i requires 0 <= i < |table| => table[|table| - 1 - i])
  }

  /** On such a table, the listing order is decreasing id. */
  lemma NewestFirstSorted(table: seq<Log>)
    requires IdsIncreasing(table)
    ensures forall i, j :: 0 <= i < j < |table| ==> NewestFirst(table)[i].id > NewestFirst(table)[j].id
  {
  }

  /** The listing holds every row of the table exactly once. */
  lemma {:induction false} NewestFirstPermutation(table: seq<Log>)
    ensures multiset(NewestFirst(table)) == multiset(table)
    decreases |table|
  {
    if table != [] {
      var last := |table| - 1;
      NewestFirstPermutation(table[..last]);
      assert NewestFirst(table) == [table[last]] + NewestFirst(table[..last]);
      assert table == table[..last] + [table[last]];
    }
  }

  function Min(a: nat, b: nat): nat {
    if a <= b then a else b
  }

  /** `.offset(offset).limit(size)`: skip `offset` rows and keep at most `size`. */
  function Window<T>(rows: seq<T>, offset: nat, size: nat): (r: seq<T>)
    ensures |r| == if offset >= |rows| then 0 else Min(size, |rows| - offset)
    ensures forall i :: 0 <= i < |r| ==> r[i] == rows[offset + i]
  {
    if offset >= |rows| then [] else rows[offset..offset + Min(size, |rows| - offset)]
  }

  /** Consecutive pages put together are the page of their combined size: no row is skipped or repeated. */
  lemma PagesTile<T>(rows: seq<T>, offset: nat, size1: nat, size2: nat)
    ensures Window(rows, offset, size1) + Window(rows, offset + size1, size2) == Window(rows, offset, size1 + size2)
  {
    var a, b, c := Window(rows, offset, size1), Window(rows, offset + size1, size2), Window(rows, offset, size1 + size2);
    assert |a + b| == |c|;
    forall i | 0 <= i < |c|
      ensures (a + b)[i] == c[i]
    {
      if i >= |a| {
        assert (a + b)[i] == b[i - |a|];
      }
    }
  }

  /** The rows of one page of the newest-first listing. */
  function Page(table: seq<Log>, size: nat, offset: nat): (r: seq<Log>)
    ensures |r| == if offset >= |table| then 0 else Min(size, |table| - offset)
    ensures forall i :: 0 <= i < |r| ==> r[i] == table[|table| - 1 - offset - i]
  {
    Window(NewestFirst(table), offset, size)
  }

  /** `get_logs(size, offset, get_details)`: the page, as dictionaries. */
  function GetLogs(table: seq<Log>, size: nat, offset: nat, getDetails: bool): (r: seq<map<ColumnName, Json>>)
    ensures |r| == if offset >= |table| then 0 else Min(size, |table| - offset)
    ensures forall i :: 0 <= i < |r| ==> r[i] == ToDict(table[|table| - 1 - offset - i], getDetails)
  {
    var page := Page(table, size, offset);
    seq(|page|, i requires 0 <= i < |page| => ToDict(page[i], getDetails))
  }

  /** `format_logs(size, offset)`: the same page, one summary line per row. */
  function FormatLogs(table: seq<Log>, size: nat, offset: nat): (r: seq<string>)
    ensures |r| == if offset >= |table| then 0 else Min(size, |table| - offset)
    ensures forall i :: 0 <= i < |r| ==> r[i] == FormatRow(table[|table| - 1 - offset - i])
  {
    var page := Page(table, size, offset);
    seq(|page|, i requires 0 <= i < |page| => FormatRow(page[i]))
  }

  /** The HTTP request as `log_request_to_db` reads it. */
  datatype Request = Request(verb: string, url: string, headers: map<string, string>, queryParams: map<string, string>)

  function Lookup(m: map<string, string>, key: string): Option<string> {
    if key in m then Some(m[key]) else None
  }

  /** The validation error of `TypeAdapter(bool)`. */
  datatype ValidationError = BoolParsing(input: Option<string>)

  /** `to_bool(param)`: the spellings pydantic accepts for a boolean, in any (ASCII) case; a missing parameter is refused. */
  function ToBool(param: Option<string>): (r: Result<bool, ValidationError>)
    ensures r.Success? ==> param.Some? && Lower(param.value) in TrueWords + FalseWords
    ensures r.Success? ==> (r.value <==> Lower(param.value) in TrueWords)
    ensures param.Some? && Lower(param.value) in TrueWords + FalseWords ==> r.Success?
  {
    match param
    case None => Failure(BoolParsing(None))
    case Some(s) =>
      if Lower(s) in TrueWords then Success(true)
      else if Lower(s) in FalseWords then Success(false)
      else Failure(BoolParsing(param))
  }

  const TrueWords: seq<string> := ["1", "on", "t", "true", "y", "yes"]
  const FalseWords: seq<string> := ["0", "off", "f", "false", "n", "no"]

  /** The record `log_request_to_db` assembles; a `None` of Python is `None` here. */
  datatype AuditRecord = AuditRecord(
    startTime: Option<Json>,
    endTime: string,
    firstName: Option<string>,
    lastName: Option<string>,
    statusCode: int,
    datasetUuid: Option<string>,
    srcName: Option<string>,
    dstName: Option<string>,
    srcTitle: Option<Json>,
    dstTitle: Option<Json>,
    copyMeta: bool,
    copyLayers: bool,
    copyStyles: bool,
    details: seq<Json>)

  function Property(props: map<string, Json>, key: string): Option<Json> {
    if key in props then Some(props[key]) else None
  }

  /**
   * `log_request_to_db(status_code, request, log_handler)`, up to the
   * insertion: the times and titles come from the handler's properties, the
   * user from the request headers, the dataset, the instances and the copy
   * flags from the query parameters, the details from the handler's records.
   * A flag that does not parse raises, the first of them in dictionary order.
   * The current time is a parameter.
   */
  function LogRequestRecord(statusCode: int, request: Request, handler: Operations.LogCollectionHandler, now: string)
    : (r: Result<AuditRecord, ValidationError>)
    reads handler
    ensures r.Success? <==>
      && ToBool(Lookup(request.queryParams, "copy_meta")).Success?
      && ToBool(Lookup(request.queryParams, "copy_layers")).Success?
      && ToBool(Lookup(request.queryParams, "copy_styles")).Success?
    ensures ToBool(Lookup(request.queryParams, "copy_meta")).Failure? ==>
      r == Failure(BoolParsing(Lookup(request.queryParams, "copy_meta")))
    ensures ToBool(Lookup(request.queryParams, "copy_meta")).Success? && ToBool(Lookup(request.queryParams, "copy_layers")).Failure? ==>
      r == Failure(BoolParsing(Lookup(request.queryParams, "copy_layers")))
    ensures
      && ToBool(Lookup(request.queryParams, "copy_meta")).Success?
      && ToBool(Lookup(request.queryParams, "copy_layers")).Success?
      && ToBool(Lookup(request.queryParams, "copy_styles")).Failure? ==>
      r == Failure(BoolParsing(Lookup(request.queryParams, "copy_styles")))
    ensures r.Success? ==>
      && r.value.startTime == Property(handler.properties, "start_time")
      && r.value.endTime == now
      && r.value.firstName == Lookup(request.headers, "sec-firstname")
      && r.value.lastName == Lookup(request.headers, "sec-lastname")
      && r.value.statusCode == statusCode
      && r.value.datasetUuid == Lookup(request.queryParams, "metadataUuid")
      && r.value.srcName == Lookup(request.queryParams, "src_name")
      && r.value.dstName == Lookup(request.queryParams, "dst_name")
      && r.value.srcTitle == Property(handler.properties, "src_title")
      && r.value.dstTitle == Property(handler.properties, "dst_title")
      && r.value.details == handler.GetJsonResponses()
    ensures r.Success? ==>
      && r.value.copyMeta == ToBool(Lookup(request.queryParams, "copy_meta")).value
      && r.value.copyLayers == ToBool(Lookup(request.queryParams, "copy_layers")).value
      && r.value.copyStyles == ToBool(Lookup(request.queryParams, "copy_styles")).value
  {
    var params := request.queryParams;
    var meta := ToBool(Lookup(params, "copy_meta"));
    var layers := ToBool(Lookup(params, "copy_layers"));
    var styles := ToBool(Lookup(params, "copy_styles"));
    if meta.Failure? then Failure(meta.error)
    else if layers.Failure? then Failure(layers.error)
    else if styles.Failure? then Failure(styles.error)
    else
      Success(AuditRecord(
        Property(handler.properties, "start_time"),
        now,
        Lookup(request.headers, "sec-firstname"),
        Lookup(request.headers, "sec-lastname"),
        statusCode,
        Lookup(params, "metadataUuid"),
        Lookup(params, "src_name"),
        Lookup(params, "dst_name"),
        Property(handler.properties, "src_title"),
        Property(handler.properties, "dst_title"),
        meta.value,
        layers.value,
        styles.value,
        handler.GetJsonResponses()))
  }

  /** A handler always carries its start time, so the record always has one. */
  lemma RecordHasStartTime(statusCode: int, request: Request, handler: Operations.LogCollectionHandler, now: string)
    requires handler.Valid()
    ensures var r := LogRequestRecord(statusCode, request, handler, now);
      r.Success? ==> r.value.startTime.Some?
  {
  }

  /** The driver refuses a value of a type the column cannot take. */
  datatype DbError = UnsupportedValue

  /**
   * A value a text or time column accepts: text, or `None`. The ORM leaves a
   * `None` attribute out of the INSERT, so the column's default fills it.
   */
  predicate Storable(v: Option<Json>) {
    v.None? || v.value.JNull? || v.value.JStr?
  }

  /** What a text column receives for a value that may be `None`. */
  function OrDefault(v: Option<string>, default: string): (r: string)
    ensures v.Some? ==> r == v.value
    ensures v.None? ==> r == default
  {
    if v.Some? then v.value else default
  }

  /** The text of a stored property, or `None` for a missing or `None` property. */
  function TextOf(v: Option<Json>): Option<string> {
    if v.Some? && v.value.JStr? then Some(v.value.s) else None
  }

  /** The column holds the record's value, or the column default where the record holds `None`. */
  predicate Filled(v: Option<string>, stored: string, default: string) {
    if v.Some? then stored == v.value else stored == default
  }

  /**
   * `Log(**record)` with the given id, as it is inserted. `loadTime` is the
   * moment the module was loaded: `default=datetime.now()` is evaluated once,
   * when the class is defined, and is the `start_time` default of every row.
   */
  function RowOf(rec: AuditRecord, id: nat, loadTime: string): (r: Option<Log>)
    ensures r.Some? <==> Storable(rec.startTime) && Storable(rec.srcTitle) && Storable(rec.dstTitle)
    ensures r.Some? ==>
      && r.value.id == id
      && Filled(TextOf(rec.startTime), r.value.startTime, loadTime)
      && r.value.endTime == rec.endTime
      && Filled(rec.firstName, r.value.firstName, "")
      && Filled(rec.lastName, r.value.lastName, "")
      && r.value.statusCode == rec.statusCode
      && Filled(rec.datasetUuid, r.value.datasetUuid, "")
      && Filled(rec.srcName, r.value.srcName, "")
      && Filled(rec.dstName, r.value.dstName, "")
      && Filled(TextOf(rec.srcTitle), r.value.srcTitle, "")
      && Filled(TextOf(rec.dstTitle), r.value.dstTitle, "")
      && r.value.copyMeta == rec.copyMeta
      && r.value.copyLayers == rec.copyLayers
      && r.value.copyStyles == rec.copyStyles
      && r.value.details == JArr(rec.details)
  {
    if Storable(rec.startTime) && Storable(rec.srcTitle) && Storable(rec.dstTitle) then
      Some(Log(id, OrDefault(TextOf(rec.startTime), loadTime), rec.endTime,
               OrDefault(rec.firstName, ""), OrDefault(rec.lastName, ""), rec.statusCode,
               OrDefault(rec.datasetUuid, ""), OrDefault(rec.srcName, ""), OrDefault(rec.dstName, ""),
               OrDefault(TextOf(rec.srcTitle), ""), OrDefault(TextOf(rec.dstTitle), ""),
               rec.copyMeta, rec.copyLayers, rec.copyStyles, JArr(rec.details)))
    else None
  }

  /** The next value of the id sequence: one more than the newest id. */
  function NextId(table: seq<Log>): nat {
    if table == [] then 1 else table[|table| - 1].id + 1
  }

  /** `log_to_db(record)`: the row is appended with the next id; only a value no column type accepts is refused. */
  function LogToDb(table: seq<Log>, rec: AuditRecord, loadTime: string): (r: Result<seq<Log>, DbError>)
    ensures r.Success? <==> Storable(rec.startTime) && Storable(rec.srcTitle) && Storable(rec.dstTitle)
    ensures r.Success? ==> |r.value| == |table| + 1 && r.value[..|table|] == table
    ensures r.Success? ==> r.value[|table|] == RowOf(rec, NextId(table), loadTime).value
  {
    match RowOf(rec, NextId(table), loadTime)
    case None => Failure(UnsupportedValue)
    case Some(row) => Success(table + [row])
  }

  /**
   * A request without names, titles, dataset or user (no `sec-firstname`
   * header, no `dst_title` when the metadata is not copied) is still logged:
   * every missing value becomes its column's default.
   */
  lemma {:induction false} MissingValuesGetDefaults(table: seq<Log>, rec: AuditRecord, loadTime: string)
    requires rec.startTime.None? && rec.firstName.None? && rec.lastName.None?
    requires rec.datasetUuid.None? && rec.srcName.None? && rec.dstName.None?
    requires rec.srcTitle.None? && rec.dstTitle.None?
    ensures LogToDb(table, rec, loadTime).Success?
    ensures var row := LogToDb(table, rec, loadTime).value[|table|];
      && row.startTime == loadTime && row.firstName == "" && row.lastName == ""
      && row.datasetUuid == "" && row.srcName == "" && row.dstName == ""
      && row.srcTitle == "" && row.dstTitle == ""
  {
    var row := RowOf(rec, NextId(table), loadTime).value;
    assert LogToDb(table, rec, loadTime).value[|table|] == row;
  }

  /**
   * Every record `log_request_to_db` builds from a handler whose start time
   * and titles are text (or unset) is inserted: the audit row is never
   * dropped for a missing header, parameter or title.
   */
  lemma RequestRecordInserted(table: seq<Log>, statusCode: int, request: Request,
                              handler: Operations.LogCollectionHandler, now: string, loadTime: string)
    requires Storable(Property(handler.properties, "start_time"))
    requires Storable(Property(handler.properties, "src_title"))
    requires Storable(Property(handler.properties, "dst_title"))
    ensures var r := LogRequestRecord(statusCode, request, handler, now);
      r.Success? ==> LogToDb(table, r.value, loadTime).Success?
  {
  }

  /** Insertion keeps the ids increasing. */
  lemma InsertKeepsIdsIncreasing(table: seq<Log>, rec: AuditRecord, loadTime: string)
    requires IdsIncreasing(table)
    ensures LogToDb(table, rec, loadTime).Success? ==> IdsIncreasing(LogToDb(table, rec, loadTime).value)
  {
    if LogToDb(table, rec, loadTime).Success? {
      var t := LogToDb(table, rec, loadTime).value;
      forall i, j | 0 <= i < j < |t|
        ensures t[i].id < t[j].id
      {
        if j == |table| && i < |table| - 1 {
          assert table[i].id < table[|table| - 1].id;
        }
      }
    }
  }

  /** The row just inserted heads the listing. */
  lemma InsertedRowListedFirst(table: seq<Log>, rec: AuditRecord, loadTime: string, getDetails: bool)
    ensures var r := LogToDb(table, rec, loadTime);
      r.Success? ==> GetLogs(r.value, 1, 0, getDetails) == [ToDict(RowOf(rec, NextId(table), loadTime).value, getDetails)]
  {
  }
}

/**
 * `Socrata::Data` and `Socrata::View` from lib/socrata/data.rb.
 *
 * A Data object wraps the parsed metadata of a view or user; its fields are
 * read with `v[name]`.  A View is itself a Socrata client (it has its own
 * batching flag and queue, which start out nil, that is falsy and empty)
 * and builds its request paths from its `id`.
 */
module SocrataData {
  import opened RubyValue
  import opened Http
  import opened Socrata

  // ---------------------------------------------------------------------------
  // Field access
  // ---------------------------------------------------------------------------

  /** `method_missing`: `@data[name]`; nil when a metadata hash has no such key. */
  function Field(data: Value, name: string): (r: Result<Value>)
    ensures data.Hash? && Str(name) !in Keys(data.entries) ==> r == Ok(Nil)
    ensures data.Hash? && Get(data.entries, Str(name)).Some? ==> r == Ok(Get(data.entries, Str(name)).value)
    ensures data.Nil? ==> r == Err(NoMethodError)
  {
    Index(data, name)
  }

  /** `id`: the same lookup under "id". */
  function Id(data: Value): (r: Result<Value>)
    ensures data.Hash? && Str("id") !in Keys(data.entries) ==> r == Ok(Nil)
    ensures data.Hash? && Get(data.entries, Str("id")).Some? ==> r == Ok(Get(data.entries, Str("id")).value)
    ensures r.Err? <==> !(data.Hash? || data.Str? || data.Sym?)
  {
    Field(data, "id")
  }

  // ---------------------------------------------------------------------------
  // Request paths; `#{x}` interpolates with `to_s`
  // ---------------------------------------------------------------------------

  function ViewPath(id: Value): string {
    "/views/" + ToS(id)
  }

  function RowsPath(id: Value): string {
    ViewPath(id) + "/rows.json"
  }

  function RowPath(id: Value, rowId: Value): string {
    ViewPath(id) + "/rows/" + ToS(rowId) + ".json"
  }

  /** The options hash `:body => row_hash.to_json`. */
  function BodyOf(env: Env, row: Value): Entries {
    [(Sym("body"), Str(env.toJson(row)))]
  }

  /** The options hash `:query => params`. */
  function QueryOf(params: Value): Entries {
    [(Sym("query"), params)]
  }

  /** A request on a path that needs the view's id: a failing `id` raises before anything is queued or sent. */
  function WithId(s: State, data: Value, k: Value -> (State, Result<Value>)): (State, Result<Value>) {
    match Id(data)
    case Err(e) => (s, Err(e))
    case Ok(id) => k(id)
  }

  /** `push_row` */
  function ViewPushRow(s: State, env: Env, data: Value, row: Value): (State, Result<Value>) {
    WithId(s, data, id => Request(s, env, POST, RowsPath(id), BodyOf(env, row)))
  }

  /** `get_row` */
  function ViewGetRow(s: State, env: Env, data: Value, rowId: Value): (State, Result<Value>) {
    WithId(s, data, id => Request(s, env, GET, RowPath(id, rowId), []))
  }

  /** `update_row` */
  function ViewUpdateRow(s: State, env: Env, data: Value, rowId: Value, row: Value): (State, Result<Value>) {
    WithId(s, data, id => Request(s, env, PUT, RowPath(id, rowId), BodyOf(env, row)))
  }

  /** `delete!` */
  function ViewDelete(s: State, env: Env, data: Value): (State, Result<Value>) {
    WithId(s, data, id => Request(s, env, DELETE, ViewPath(id), []))
  }

  /** `raw_rows` */
  function ViewRawRows(s: State, env: Env, data: Value, params: Value): (State, Result<Value>) {
    WithId(s, data, id => Request(s, env, GET, RowsPath(id), QueryOf(params)))
  }

  // ---------------------------------------------------------------------------
  // Bulk uploads: `append`, `replace`, `truncate!`
  // ---------------------------------------------------------------------------

  datatype Bulk = AppendRows(skipHeaders: Value) | ReplaceRows(skipHeaders: Value) | Truncate

  function Refusal(op: Bulk): string {
    match op
    case AppendRows(_) => "Error: Cannot perform an append as part of a batch"
    case ReplaceRows(_) => "Error: Cannot perform a replace as part of a batch"
    case Truncate => "Error: Cannot truncate as part of a batch"
  }

  function BulkPath(op: Bulk, id: Value): string {
    match op
    case AppendRows(skip) => ViewPath(id) + "/rows?method=append&skip_headers=" + ToS(skip)
    case ReplaceRows(skip) => ViewPath(id) + "/rows?method=replace&skip_headers=" + ToS(skip)
    case Truncate => ViewPath(id) + "/rows?method=replace"
  }

  /** The local file uploaded and the name it is sent under; `truncate!` sends an empty file. */
  function BulkFile(op: Bulk, filename: string): (string, string) {
    if op.Truncate? then ("/dev/null", "empty_file.csv") else (filename, filename)
  }

  /** The batch guard comes first; `id` is read only when the upload goes ahead. */
  function ViewBulkUpload(s: State, env: Env, data: Value, op: Bulk, filename: string): (State, Result<Value>) {
    if s.batching then (s, Err(RuntimeError(Refusal(op))))
    else
      var (local, remote) := BulkFile(op, filename);
      WithId(s, data, id => UploadChecked(s, env, BulkPath(op, id), local, remote))
  }

  // ---------------------------------------------------------------------------
  // `rows`: array-of-arrays rows reshaped into hashes
  // ---------------------------------------------------------------------------

  /** `columns.each_index { |idx| mapping[idx] = columns[idx][by] }`; the first failing lookup raises. */
  function ColumnKeys(columns: seq<Value>, attr: string): (r: Result<seq<Value>>)
    ensures r.Ok? ==> |r.value| == |columns|
  {
    if columns == [] then Ok([])
    else match ColumnKeys(columns[..|columns| - 1], attr)
      case Err(e) => Err(e)
      case Ok(ks) =>
        match Index(columns[|columns| - 1], attr)
        case Err(e) => Err(e)
        case Ok(k) => Ok(ks + [k])
  }

  /** `mapping[idx]`: nil past the last column. */
  function MapKey(keys: seq<Value>, idx: nat): Value {
    if idx < |keys| then keys[idx] else Nil
  }

  /** The assignments `row_hash[mapping[idx]] = row_arr[idx]`, in index order. */
  function CellPairs(keys: seq<Value>, cells: seq<Value>): (ps: Entries)
    ensures |ps| == |cells|
    ensures forall i :: 0 <= i < |cells| ==> ps[i] == (MapKey(keys, i), cells[i])
  {
    seq(|cells|, i requires 0 <= i < |cells| => (MapKey(keys, i), cells[i]))
  }

  function First(cells: seq<Value>): Value {
    if cells == [] then Nil else cells[0]
  }

  /** The hash built for one row: the cells under their column keys, then `"_id"`. */
  function RowHash(keys: seq<Value>, cells: seq<Value>): Entries {
    Put(PutAll([], CellPairs(keys, cells)), Str("_id"), First(cells))
  }

  /** What `rows.each` walks: an array's elements; a hash yields its `[key, value]` pairs. */
  function DataRows(v: Value): Result<seq<Value>> {
    match v
    case Arr(es) => Ok(es)
    case Hash(kvs) => Ok(seq(|kvs|, i requires 0 <= i < |kvs| => Arr([kvs[i].0, kvs[i].1])))
    case _ => Err(NoMethodError)
  }

  /**
   * `rows.each { |row_arr| ... row_arr.each_index ... }` with `make` building
   * the value for one row's cells: one value per row, in order; a row that
   * is not an array has no `each_index`.
   */
  function MapArrays(make: seq<Value> -> Value, rows: seq<Value>): Result<seq<Value>> {
    if rows == [] then Ok([])
    else match MapArrays(make, rows[..|rows| - 1])
      case Err(e) => Err(e)
      case Ok(hs) =>
        var last := rows[|rows| - 1];
        if last.Arr? then Ok(hs + [make(last.elems)]) else Err(NoMethodError)
  }

  /** The row hash for a row's cells, as a value. */
  function RowHashOf(keys: seq<Value>): seq<Value> -> Value {
    cells => Hash(RowHash(keys, cells))
  }

  /** One hash per row, in order. */
  function ReshapeRows(keys: seq<Value>, rows: seq<Value>): Result<seq<Value>> {
    MapArrays(RowHashOf(keys), rows)
  }

  function Lookup(r: Result<Value>, key: string): Result<Value> {
    match r
    case Err(e) => Err(e)
    case Ok(v) => Index(v, key)
  }

  /** Reshaping a `rows.json` response. */
  function ReshapeResponse(response: Value, attr: string): (r: Result<Value>)
    ensures r.Ok? ==> r.value.Arr? && forall j :: 0 <= j < |r.value.elems| ==> r.value.elems[j].Hash?
    ensures response.Arr? ==> r == Err(TypeError)
  {
    match Lookup(Lookup(Index(response, "meta"), "view"), "columns")
    case Err(e) => Err(e)
    case Ok(columns) =>
      if !columns.Arr? then Err(NoMethodError)
      else match ColumnKeys(columns.elems, attr)
        case Err(e) => Err(e)
        case Ok(keys) =>
          match Index(response, "data")
          case Err(e) => Err(e)
          case Ok(rowsValue) =>
            match DataRows(rowsValue)
            case Err(e) => Err(e)
            case Ok(rows) =>
              ReshapeRowsOk(keys, rows);
              match ReshapeRows(keys, rows)
              case Err(e) => Err(e)
              case Ok(hs) => Ok(Arr(hs))
  }

  /** `rows` */
  function ViewRows(s: State, env: Env, data: Value, params: Value, attr: string): (res: (State, Result<Value>))
    ensures res.0.batching == s.batching && s.sent <= res.0.sent
    ensures res.1.Ok? ==> res.1.value.Arr? && forall j :: 0 <= j < |res.1.value.elems| ==> res.1.value.elems[j].Hash?
    ensures s.batching && Id(data).Ok? ==> res.1 == Err(TypeError)
  {
    WithId(s, data, id =>
      var (s', response) := Request(s, env, GET, RowsPath(id), QueryOf(params));
      (s', match response
           case Err(e) => Err(e)
           case Ok(v) => ReshapeResponse(v, attr)))
  }

  // ---------------------------------------------------------------------------
  // The loops of `rows`
  // ---------------------------------------------------------------------------

  lemma {:induction false} ColumnKeysErrPersists(columns: seq<Value>, attr: string, n: nat)
    requires n <= |columns| && ColumnKeys(columns[..n], attr).Err?
    ensures ColumnKeys(columns, attr) == ColumnKeys(columns[..n], attr)
    decreases |columns| - n
  {
    if n < |columns| {
      assert columns[..n + 1][..n] == columns[..n];
      ColumnKeysErrPersists(columns, attr, n + 1);
    } else {
      assert columns[..n] == columns;
    }
  }

  method BuildMapping(columns: seq<Value>, attr: string) returns (r: Result<seq<Value>>)
    ensures r == ColumnKeys(columns, attr)
  {
    var keys: seq<Value> := [];
    var idx := 0;
    while idx < |columns|
      invariant 0 <= idx <= |columns|
      invariant ColumnKeys(columns[..idx], attr) == Ok(keys)
    {
      assert columns[..idx + 1][..idx] == columns[..idx];
      var k := Index(columns[idx], attr);
      if k.Err? {
        ColumnKeysErrPersists(columns, attr, idx + 1);
        return Err(k.error);
      }
      keys := keys + [k.value];
      idx := idx + 1;
    }
    assert columns[..idx] == columns;
    r := Ok(keys);
  }

  method BuildRowHash(keys: seq<Value>, cells: seq<Value>) returns (h: Entries)
    ensures h == RowHash(keys, cells)
  {
    h := [];
    var idx := 0;
    while idx < |cells|
      invariant 0 <= idx <= |cells|
      invariant h == PutAll([], CellPairs(keys, cells)[..idx])
    {
      var ps := CellPairs(keys, cells);
      assert ps[..idx + 1] == ps[..idx] + [ps[idx]];
      PutAllSnoc([], ps[..idx], ps[idx]);
      h := Put(h, MapKey(keys, idx), cells[idx]);
      idx := idx + 1;
    }
    assert CellPairs(keys, cells)[..idx] == CellPairs(keys, cells);
    h := Put(h, Str("_id"), if |cells| > 0 then cells[0] else Nil);
  }

  lemma {:induction false} MapArraysErrPersists(make: seq<Value> -> Value, rows: seq<Value>, n: nat)
    requires n <= |rows| && MapArrays(make, rows[..n]).Err?
    ensures MapArrays(make, rows) == MapArrays(make, rows[..n])
    decreases |rows| - n
  {
    if n < |rows| {
      assert rows[..n + 1][..n] == rows[..n];
      MapArraysErrPersists(make, rows, n + 1);
    } else {
      assert rows[..n] == rows;
    }
  }

  method BuildRows(keys: seq<Value>, rows: seq<Value>) returns (r: Result<seq<Value>>)
    ensures r == ReshapeRows(keys, rows)
  {
    var newRows: seq<Value> := [];
    var j := 0;
    while j < |rows|
      invariant 0 <= j <= |rows|
      invariant ReshapeRows(keys, rows[..j]) == Ok(newRows)
    {
      assert rows[..j + 1][..j] == rows[..j];
      var rowArr := rows[j];
      if !rowArr.Arr? {
        MapArraysErrPersists(RowHashOf(keys), rows, j + 1);
        return Err(NoMethodError);
      }
      var rowHash := BuildRowHash(keys, rowArr.elems);
      newRows := newRows + [Hash(rowHash)];
      j := j + 1;
    }
    assert rows[..j] == rows;
    r := Ok(newRows);
  }

  method ReshapeResponseLoop(response: Value, attr: string) returns (r: Result<Value>)
    ensures r == ReshapeResponse(response, attr)
  {
    var columns := Lookup(Lookup(Index(response, "meta"), "view"), "columns");
    if columns.Err? {
      return Err(columns.error);
    }
    if !columns.value.Arr? {
      return Err(NoMethodError);
    }
    var mapping := BuildMapping(columns.value.elems, attr);
    if mapping.Err? {
      return Err(mapping.error);
    }
    // the lookups above only succeed on a hash, so this one cannot fail
    var rows := DataRows(IndexOrNil(response, "data"));
    if rows.Err? {
      return Err(rows.error);
    }
    var built := BuildRows(mapping.value, rows.value);
    if built.Err? {
      return Err(built.error);
    }
    r := Ok(Arr(built.value));
  }

  // ---------------------------------------------------------------------------
  // Properties of `rows`
  // ---------------------------------------------------------------------------

  /** The mapping has exactly one key per column, `columns[idx][by]`, when every lookup succeeds. */
  lemma {:induction false} ColumnKeysOk(columns: seq<Value>, attr: string)
    ensures ColumnKeys(columns, attr).Ok? <==> forall i :: 0 <= i < |columns| ==> Index(columns[i], attr).Ok?
    ensures ColumnKeys(columns, attr).Ok? ==>
      forall i :: 0 <= i < |columns| ==> ColumnKeys(columns, attr).value[i] == Index(columns[i], attr).value
  {
    if columns != [] {
      var init := columns[..|columns| - 1];
      ColumnKeysOk(init, attr);
      assert forall i :: 0 <= i < |init| ==> init[i] == columns[i];
    }
  }

  /** One hash per row, in the same order, or the first failure. */
  /** The walk succeeds iff every row is an array, and then yields `make` of each row, in order. */
  lemma {:induction false} MapArraysOk(make: seq<Value> -> Value, rows: seq<Value>)
    ensures MapArrays(make, rows).Ok? <==> forall j :: 0 <= j < |rows| ==> rows[j].Arr?
    ensures MapArrays(make, rows).Ok? ==>
      && |MapArrays(make, rows).value| == |rows|
      && forall j :: 0 <= j < |rows| ==> MapArrays(make, rows).value[j] == make(rows[j].elems)
  {
    if rows != [] {
      var init, last := rows[..|rows| - 1], rows[|rows| - 1];
      MapArraysOk(make, init);
      assert forall j :: 0 <= j < |init| ==> init[j] == rows[j];
    }
  }

  lemma ReshapeRowsOk(keys: seq<Value>, rows: seq<Value>)
    ensures ReshapeRows(keys, rows).Ok? <==> forall j :: 0 <= j < |rows| ==> rows[j].Arr?
    ensures ReshapeRows(keys, rows).Ok? ==>
      && |ReshapeRows(keys, rows).value| == |rows|
      && forall j :: 0 <= j < |rows| ==> ReshapeRows(keys, rows).value[j] == Hash(RowHash(keys, rows[j].elems))
  {
    MapArraysOk(RowHashOf(keys), rows);
  }

  /** Every row hash maps `"_id"` to the row's first cell (nil for an empty row), overriding any column of that name. */
  lemma RowHashId(keys: seq<Value>, cells: seq<Value>)
    ensures Get(RowHash(keys, cells), Str("_id")) == Some(First(cells))
  {
    GetPut(PutAll([], CellPairs(keys, cells)), Str("_id"), First(cells), Str("_id"));
  }

  /** With duplicate keys, the last index wins. */
  lemma {:induction false} LastValueCellPairs(keys: seq<Value>, cells: seq<Value>, i: nat, n: nat)
    requires i < n <= |cells|
    requires forall j :: i < j < n ==> MapKey(keys, j) != MapKey(keys, i)
    ensures LastValue(CellPairs(keys, cells)[..n], MapKey(keys, i)) == Some(cells[i])
    decreases n
  {
    var ps := CellPairs(keys, cells)[..n];
    assert ps[..n - 1] == CellPairs(keys, cells)[..n - 1];
    if n - 1 > i {
      LastValueCellPairs(keys, cells, i, n - 1);
    }
  }

  /**
   * Apart from `"_id"`, the row hash maps `columns[idx][by]` to `row_arr[idx]`
   * for the LAST index `idx` carrying that key.
   */
  lemma RowHashCell(keys: seq<Value>, cells: seq<Value>, i: nat)
    requires i < |cells|
    requires MapKey(keys, i) != Str("_id")
    requires forall j :: i < j < |cells| ==> MapKey(keys, j) != MapKey(keys, i)
    ensures Get(RowHash(keys, cells), MapKey(keys, i)) == Some(cells[i])
  {
    var ps := CellPairs(keys, cells);
    var k := MapKey(keys, i);
    GetPut(PutAll([], ps), Str("_id"), First(cells), k);
    assert Get(RowHash(keys, cells), k) == Get(PutAll([], ps), k);
    assert ps[i].0 == k;
    assert k in Keys(ps);
    GetPutAll([], ps, k);
    assert Get(PutAll([], ps), k) == LastValue(ps, k);
    assert ps[..|cells|] == ps;
    LastValueCellPairs(keys, cells, i, |cells|);
  }

  // ---------------------------------------------------------------------------
  // Properties of the view's requests
  // ---------------------------------------------------------------------------

  /** Inside a batch, push_row / update_row / delete! only enqueue their record on their path. */
  lemma ViewRequestsInBatch(s: State, env: Env, data: Value, id: Value, rowId: Value, row: Value)
    requires s.batching && Id(data) == Ok(id)
    ensures ViewPushRow(s, env, data, row) ==
      (var q := s.queue + [Req(RowsPath(id), POST, Some(Str(env.toJson(row))))]; (s.(queue := q), Ok(QueueValue(q))))
    ensures ViewUpdateRow(s, env, data, rowId, row) ==
      (var q := s.queue + [Req(RowPath(id, rowId), PUT, Some(Str(env.toJson(row))))]; (s.(queue := q), Ok(QueueValue(q))))
    ensures ViewDelete(s, env, data) ==
      (var q := s.queue + [Req(ViewPath(id), DELETE, Some(Nil))]; (s.(queue := q), Ok(QueueValue(q))))
  {
  }

  /** Outside a batch they send exactly one call, on their path. */
  lemma ViewRequestsDirect(s: State, env: Env, data: Value, id: Value, rowId: Value, row: Value)
    requires !s.batching && Id(data) == Ok(id)
    ensures ViewPushRow(s, env, data, row).0.sent == s.sent + [HttpCall(POST, RowsPath(id), BodyOf(env, row))]
    ensures ViewGetRow(s, env, data, rowId).0.sent == s.sent + [HttpCall(GET, RowPath(id, rowId), [])]
    ensures ViewUpdateRow(s, env, data, rowId, row).0.sent == s.sent + [HttpCall(PUT, RowPath(id, rowId), BodyOf(env, row))]
    ensures ViewDelete(s, env, data).0.sent == s.sent + [HttpCall(DELETE, ViewPath(id), [])]
  {
  }

  /** Each bulk operation raises inside a batch before anything is uploaded, and uploads once outside. */
  lemma BulkGuard(s: State, env: Env, data: Value, op: Bulk, filename: string, id: Value)
    ensures s.batching ==> ViewBulkUpload(s, env, data, op, filename) == (s, Err(RuntimeError(Refusal(op))))
    ensures !s.batching && Id(data) == Ok(id) ==>
      ViewBulkUpload(s, env, data, op, filename).0.sent
        == s.sent + [Upload(BulkPath(op, id), BulkFile(op, filename).0, BulkFile(op, filename).1)]
  {
  }

  /** The block of `push_row` calls on one view, as the batch sees it. */
  function PushRowOps(env: Env, id: Value, rows: seq<Value>): (ops: seq<Op>)
    ensures |ops| == |rows|
    ensures forall i :: 0 <= i < |rows| ==> ops[i] == RequestOp(POST, RowsPath(id), BodyOf(env, rows[i]))
  {
    seq(|rows|, i requires 0 <= i < |rows| => RequestOp(POST, RowsPath(id), BodyOf(env, rows[i])))
  }

  /**
   * Several `push_row` calls inside `batch_request` reach the server as ONE
   * POST to /batches, whose records are the rows in call order.
   */
  lemma PushRowsInOneBatch(s: State, env: Env, id: Value, rows: seq<Value>)
    requires rows != []
    ensures var ops := PushRowOps(env, id, rows);
      var q := Records(ops);
      && |q| == |rows|
      && (forall i :: 0 <= i < |rows| ==> q[i] == Req(RowsPath(id), POST, Some(Str(env.toJson(rows[i])))))
      && Batch(s, env, ops).0.sent == s.sent + [BatchCall(q, env.toJson)]
  {
    var ops := PushRowOps(env, id, rows);
    BatchOfRequests(s, env, ops);
  }

  // ---------------------------------------------------------------------------
  // The View object
  // ---------------------------------------------------------------------------

  class View {
    const data: Value
    const session: Session

    ghost predicate Valid()
      reads this, session, session.transport
    {
      session.Valid()
    }

    /** `View.new(data, party)`: its own flag and queue (initially nil, so not batching and empty). */
    constructor (data: Value, transport: Transport, toJson: Value -> string)
      requires transport.Valid()
      ensures Valid() && this.data == data && fresh(session)
      ensures session.transport == transport && session.toJson == toJson
      ensures !session.batching && session.queue == []
      ensures transport.sent == old(transport.sent)
    {
      this.data := data;
      session := new Session(transport, toJson);
    }

    method PushRow(row: Value) returns (r: Result<Value>)
      requires Valid()
      modifies session, session.transport
      ensures Valid()
      ensures (session.St(), r) == ViewPushRow(old(session.St()), session.Environment(), data, row)
    {
      var id := Id(data);
      if id.Err? {
        return Err(id.error);
      }
      r := session.PostRequest(RowsPath(id.value), BodyOf(session.Environment(), row));
    }

    method GetRow(rowId: Value) returns (r: Result<Value>)
      requires Valid()
      modifies session, session.transport
      ensures Valid()
      ensures (session.St(), r) == ViewGetRow(old(session.St()), session.Environment(), data, rowId)
    {
      var id := Id(data);
      if id.Err? {
        return Err(id.error);
      }
      r := session.GetRequest(RowPath(id.value, rowId), []);
    }

    method UpdateRow(rowId: Value, row: Value) returns (r: Result<Value>)
      requires Valid()
      modifies session, session.transport
      ensures Valid()
      ensures (session.St(), r) == ViewUpdateRow(old(session.St()), session.Environment(), data, rowId, row)
    {
      var id := Id(data);
      if id.Err? {
        return Err(id.error);
      }
      r := session.PutRequest(RowPath(id.value, rowId), BodyOf(session.Environment(), row));
    }

    method Delete() returns (r: Result<Value>)
      requires Valid()
      modifies session, session.transport
      ensures Valid()
      ensures (session.St(), r) == ViewDelete(old(session.St()), session.Environment(), data)
    {
      var id := Id(data);
      if id.Err? {
        return Err(id.error);
      }
      r := session.DeleteRequest(ViewPath(id.value), []);
    }

    method RawRows(params: Value) returns (r: Result<Value>)
      requires Valid()
      modifies session, session.transport
      ensures Valid()
      ensures (session.St(), r) == ViewRawRows(old(session.St()), session.Environment(), data, params)
    {
      var id := Id(data);
      if id.Err? {
        return Err(id.error);
      }
      r := session.GetRequest(RowsPath(id.value), QueryOf(params));
    }

    method Rows(params: Value, attr: string) returns (r: Result<Value>)
      requires Valid()
      modifies session, session.transport
      ensures Valid()
      ensures (session.St(), r) == ViewRows(old(session.St()), session.Environment(), data, params, attr)
    {
      var id := Id(data);
      if id.Err? {
        return Err(id.error);
      }
      var response := session.GetRequest(RowsPath(id.value), QueryOf(params));
      if response.Err? {
        return Err(response.error);
      }
      r := ReshapeResponseLoop(response.value, attr);
    }

    /** `append`, `replace` and `truncate!` */
    method BulkUpload(op: Bulk, filename: string) returns (r: Result<Value>)
      requires Valid()
      modifies session.transport
      ensures Valid()
      ensures (session.St(), r) == ViewBulkUpload(old(session.St()), session.Environment(), data, op, filename)
    {
      if session.batching {
        return Err(RuntimeError(Refusal(op)));
      }
      var id := Id(data);
      if id.Err? {
        return Err(id.error);
      }
      var (local, remote) := BulkFile(op, filename);
      r := session.UploadFile(BulkPath(op, id.value), local, remote);
    }
  }
}

/** The batch upload job: decode the payload, read the connection string, parse
    the CSV, ensure the table exists, upsert every row, commit once. Decoding,
    parsing and the database are inputs; the job's observable effects are its
    response and the table it leaves behind. */
module Ingest {
  import opened Wrappers
  import opened Text
  import opened LoadStore
  import Gate
  import LoadApi

  /** One parsed CSV record, as the database will see it: a row it accepts, or a
      row whose statement raises (a missing column, a rate that is not a number). */
  datatype Record = Row(row: LoadRow) | BadRow(cause: string)

  /** Reading `csv_content`: a payload that cannot be decoded (missing field, bad
      base64, bad UTF-8), or decoded text whose CSV parse failed or gave records. */
  datatype CsvParse = Records(records: seq<Record>) | CsvError(cause: string)
  datatype Payload = PayloadError(cause: string) | Decoded(parse: CsvParse)

  /** The database behind `DATABASE_URL`: the table (absent until first created),
      the failures its engine, connection or commit would raise, and the error the
      database library raises when the insert is executed with an empty list of
      parameter sets (its bind parameters then have no values). */
  datatype Backend = Backend(
    table: Option<Store>,
    connectError: Option<string>,
    commitError: Option<string>,
    emptyBatchError: string)

  /** The JSON body of the response. */
  datatype Body = Uploaded(message: string, recordCount: nat) | UploadFailed(error: string)

  datatype Response = Response(statusCode: int, body: Body)

  /** `str(KeyError('DATABASE_URL'))` */
  const MissingUrl := "'DATABASE_URL'"

  /** `CREATE TABLE IF NOT EXISTS loads (...)` */
  function EnsureTable(table: Option<Store>): (r: Store)
    ensures table.Some? ==> r == table.value
    ensures table.None? ==> r == map[]
    ensures TableWellKeyed(table) ==> WellKeyed(r)
  {
    match table
    case Some(s) => s
    case None => map[]
  }

  /** The reference numbers of the accepted rows of a batch. */
  function BatchKeys(records: seq<Record>): set<string> {
    set i | 0 <= i < |records| && records[i].Row? :: records[i].row.referenceNumber
  }

  /** `conn.execute(insert_sql, records)`: the rows are upserted in order; the first
      row that raises aborts the batch with its cause. An upsert never deletes, so
      a successful batch keeps every key the table had. */
  function ApplyBatch(s: Store, records: seq<Record>): (r: Result<Store, string>)
    ensures r.Success? ==> s.Keys <= r.value.Keys
    decreases |records|
  {
    if |records| == 0 then Success(s)
    else
      match records[0]
      case BadRow(cause) => Failure(cause)
      case Row(row) => ApplyBatch(Upsert(s, row), records[1..])
  }

  /** `handler`: the response, and the table left behind. The table only changes
      on the path that reaches `commit()`. */
  function Handler(payload: Payload, databaseUrl: Option<string>, db: Backend): (r: (Response, Option<Store>))
    ensures r.0.statusCode == 200 || r.0.statusCode == 500
    ensures r.0.statusCode == 200 <==> RunSucceeds(payload, databaseUrl, db)
    ensures r.0.statusCode == 500 ==> r.0.body.UploadFailed? && r.1 == db.table
  {
    match payload
    case PayloadError(cause) => (Response(500, UploadFailed(cause)), db.table)
    case Decoded(parse) =>
      if databaseUrl.None? then (Response(500, UploadFailed(MissingUrl)), db.table)
      else
        match parse
        case CsvError(cause) => (Response(500, UploadFailed(cause)), db.table)
        case Records(records) =>
          if db.connectError.Some? then (Response(500, UploadFailed(db.connectError.value)), db.table)
          else if |records| == 0 then (Response(500, UploadFailed(db.emptyBatchError)), db.table)
          else
            match ApplyBatch(EnsureTable(db.table), records)
            case Failure(cause) => (Response(500, UploadFailed(cause)), db.table)
            case Success(s) =>
              if db.commitError.Some? then (Response(500, UploadFailed(db.commitError.value)), db.table)
              else
                var n := |records|;
                (Response(200, Uploaded("Successfully uploaded " + NatToString(n) + " records", n)), Some(s))
  }

  /** The batch fails exactly when one of its records is bad, and then with the
      cause of the first bad one. */
  lemma {:induction false} BatchFailsAtFirstBadRow(s: Store, records: seq<Record>)
    ensures ApplyBatch(s, records).Failure? <==> exists j :: 0 <= j < |records| && records[j].BadRow?
    ensures ApplyBatch(s, records).Failure? ==>
              exists j :: && 0 <= j < |records| && records[j].BadRow?
                          && ApplyBatch(s, records).error == records[j].cause
                          && forall i :: 0 <= i < j ==> records[i].Row?
    decreases |records|
  {
    if |records| > 0 {
      match records[0]
      case BadRow(cause) =>
      case Row(row) =>
        var rest := records[1..];
        BatchFailsAtFirstBadRow(Upsert(s, row), rest);
        assert forall j :: 0 <= j < |rest| ==> rest[j] == records[j + 1];
        if ApplyBatch(s, records).Failure? {
          var j :| && 0 <= j < |rest| && rest[j].BadRow?
                   && ApplyBatch(Upsert(s, row), rest).error == rest[j].cause
                   && forall i :: 0 <= i < j ==> rest[i].Row?;
          assert records[j + 1] == rest[j];
          RowsThroughCons(records, j);
        } else {
          RowsThroughCons(records, |rest|);
        }
    }
  }

  /** A batch that opens with an accepted row, followed by `j` accepted rows,
      opens with `j + 1` accepted rows. */
  lemma RowsThroughCons(records: seq<Record>, j: int)
    requires 0 <= j < |records| && records[0].Row?
    requires forall i :: 0 <= i < j ==> records[1..][i].Row?
    ensures forall i :: 0 <= i < j + 1 ==> records[i].Row?
  {
    forall i | 0 < i < j + 1 ensures records[i].Row? {
      assert records[i] == records[1..][i - 1];
    }
  }

  /** The keys of a batch are those of its first record and of the rest. */
  lemma BatchKeysCons(records: seq<Record>)
    requires |records| > 0
    ensures BatchKeys(records)
            == (if records[0].Row? then {records[0].row.referenceNumber} else {}) + BatchKeys(records[1..])
  {
    var rest := records[1..];
    forall k | k in BatchKeys(records)
      ensures k in (if records[0].Row? then {records[0].row.referenceNumber} else {}) + BatchKeys(rest)
    {
      var i :| 0 <= i < |records| && records[i].Row? && records[i].row.referenceNumber == k;
      if i > 0 { assert records[i] == rest[i - 1]; }
    }
    forall k | k in BatchKeys(rest) ensures k in BatchKeys(records) {
      var i :| 0 <= i < |rest| && rest[i].Row? && rest[i].row.referenceNumber == k;
      assert records[i + 1] == rest[i];
    }
  }

  /** A successful batch touches exactly the keys of its rows: the table keeps its
      other keys and values and gains no key it was not given. */
  lemma {:induction false} BatchKeysAndUntouched(s: Store, records: seq<Record>)
    requires ApplyBatch(s, records).Success?
    ensures ApplyBatch(s, records).value.Keys == s.Keys + BatchKeys(records)
    ensures forall k :: k in s && k !in BatchKeys(records) ==> ApplyBatch(s, records).value[k] == s[k]
  {
    BatchKeysExactly(s, records);
    BatchLeavesOthers(s, records);
  }

  /** The key half of `BatchKeysAndUntouched`. */
  lemma {:induction false} BatchKeysExactly(s: Store, records: seq<Record>)
    requires ApplyBatch(s, records).Success?
    ensures ApplyBatch(s, records).value.Keys == s.Keys + BatchKeys(records)
    decreases |records|
  {
    if |records| > 0 {
      BatchKeysExactly(Upsert(s, records[0].row), records[1..]);
      BatchKeysCons(records);
    }
  }

  /** The value half of `BatchKeysAndUntouched`. */
  lemma {:induction false} BatchLeavesOthers(s: Store, records: seq<Record>)
    requires ApplyBatch(s, records).Success?
    ensures forall k :: k in s && k !in BatchKeys(records) ==> ApplyBatch(s, records).value[k] == s[k]
    decreases |records|
  {
    if |records| > 0 {
      BatchLeavesOthers(Upsert(s, records[0].row), records[1..]);
      BatchKeysCons(records);
    }
  }

  /** Row `i` is the last accepted row of the batch with key `k`. */
  ghost predicate IsLastFor(records: seq<Record>, i: int, k: string) {
    && 0 <= i < |records|
    && records[i].Row?
    && records[i].row.referenceNumber == k
    && forall j :: i < j < |records| && records[j].Row? ==> records[j].row.referenceNumber != k
  }

  /** The case of `BatchLastWriteWins` where the batch's first row is the last
      one with key `k`: no later row touches `k`. */
  lemma LastRowFirst(s: Store, records: seq<Record>, k: string)
    requires WellKeyed(s)
    requires ApplyBatch(s, records).Success?
    requires IsLastFor(records, 0, k)
    ensures k in ApplyBatch(s, records).value
    ensures ApplyBatch(s, records).value[k] == records[0].row
  {
    var rest := records[1..];
    forall j | 0 <= j < |rest| && rest[j].Row? ensures rest[j].row.referenceNumber != k {
      assert rest[j] == records[j + 1];
    }
    BatchKeysAndUntouched(Upsert(s, records[0].row), rest);
  }

  /** In a well-keyed table, the last row of the batch with a given key is what
      that key holds afterwards, all five non-key columns included. */
  lemma {:induction false} BatchLastWriteWins(s: Store, records: seq<Record>, i: int, k: string)
    requires WellKeyed(s)
    requires ApplyBatch(s, records).Success?
    requires IsLastFor(records, i, k)
    ensures k in ApplyBatch(s, records).value
    ensures ApplyBatch(s, records).value[k] == records[i].row
    decreases |records|
  {
    var row := records[0].row;
    var rest := records[1..];
    var s' := Upsert(s, row);
    if i == 0 {
      LastRowFirst(s, records, k);
    } else {
      assert IsLastFor(rest, i - 1, k) by {
        forall j | i - 1 < j < |rest| && rest[j].Row? ensures rest[j].row.referenceNumber != k {
          assert rest[j] == records[j + 1];
        }
      }
      BatchLastWriteWins(s', rest, i - 1, k);
    }
  }

  /** A successful batch keeps the table well keyed. */
  lemma {:induction false} BatchKeepsWellKeyed(s: Store, records: seq<Record>)
    requires WellKeyed(s)
    requires ApplyBatch(s, records).Success?
    ensures WellKeyed(ApplyBatch(s, records).value)
    decreases |records|
  {
    if |records| > 0 {
      BatchKeepsWellKeyed(Upsert(s, records[0].row), records[1..]);
    }
  }

  /** Every step of a run succeeds: the payload decodes, `DATABASE_URL` is set, the
      CSV parses into at least one record, the database is reachable, every record
      is accepted and the commit goes through. */
  ghost predicate RunSucceeds(payload: Payload, databaseUrl: Option<string>, db: Backend) {
    && payload.Decoded?
    && databaseUrl.Some?
    && payload.parse.Records?
    && db.connectError.None?
    && |payload.parse.records| > 0
    && ApplyBatch(EnsureTable(db.table), payload.parse.records).Success?
    && db.commitError.None?
  }

  /** A table that is absent, or present and well keyed. */
  ghost predicate TableWellKeyed(table: Option<Store>) {
    table.None? || WellKeyed(table.value)
  }

  /** All or nothing: a failed run answers 500 with an error body and leaves the
      table exactly as it was; a successful run answers 200 and reports one count
      per record, the table then being the batch applied to the ensured table. */
  lemma HandlerIsAtomic(payload: Payload, databaseUrl: Option<string>, db: Backend)
    ensures var (resp, after) := Handler(payload, databaseUrl, db);
            && (resp.statusCode == 200 || resp.statusCode == 500)
            && (resp.statusCode == 200 <==> RunSucceeds(payload, databaseUrl, db))
            && (resp.statusCode == 500 <==> resp.body.UploadFailed?)
            && (resp.statusCode == 500 ==> after == db.table)
            && (resp.statusCode == 200 ==>
                  && payload.Decoded? && payload.parse.Records?
                  && resp.body.recordCount == |payload.parse.records|
                  && ApplyBatch(EnsureTable(db.table), payload.parse.records).Success?
                  && after == Some(ApplyBatch(EnsureTable(db.table), payload.parse.records).value))
  {
  }

  /** Each failing step is reported with its own error text: the first step that
      raises decides the 500's body, and the table is left as it was. */
  lemma HandlerReportsFailingStep(payload: Payload, databaseUrl: Option<string>, db: Backend)
    ensures payload.PayloadError? ==>
              Handler(payload, databaseUrl, db) == (Response(500, UploadFailed(payload.cause)), db.table)
    ensures payload.Decoded? && databaseUrl.None? ==>
              Handler(payload, databaseUrl, db) == (Response(500, UploadFailed(MissingUrl)), db.table)
    ensures payload.Decoded? && databaseUrl.Some? && payload.parse.CsvError? ==>
              Handler(payload, databaseUrl, db) == (Response(500, UploadFailed(payload.parse.cause)), db.table)
    ensures payload.Decoded? && databaseUrl.Some? && payload.parse.Records? && db.connectError.Some? ==>
              Handler(payload, databaseUrl, db) == (Response(500, UploadFailed(db.connectError.value)), db.table)
    ensures && payload.Decoded? && databaseUrl.Some? && payload.parse.Records? && db.connectError.None?
            && |payload.parse.records| > 0
            && ApplyBatch(EnsureTable(db.table), payload.parse.records).Failure? ==>
              Handler(payload, databaseUrl, db)
              == (Response(500, UploadFailed(ApplyBatch(EnsureTable(db.table), payload.parse.records).error)), db.table)
    ensures && payload.Decoded? && databaseUrl.Some? && payload.parse.Records? && db.connectError.None?
            && |payload.parse.records| > 0
            && ApplyBatch(EnsureTable(db.table), payload.parse.records).Success?
            && db.commitError.Some? ==>
              Handler(payload, databaseUrl, db) == (Response(500, UploadFailed(db.commitError.value)), db.table)
  {
  }

  /** With a reachable database and every record accepted, the run succeeds and
      its message spells out the record count. */
  lemma HandlerSucceeds(records: seq<Record>, url: string, db: Backend)
    requires db.connectError.None? && db.commitError.None?
    requires |records| > 0
    requires forall j :: 0 <= j < |records| ==> records[j].Row?
    ensures Handler(Decoded(Records(records)), Some(url), db).0
            == Response(200, Uploaded("Successfully uploaded " + NatToString(|records|) + " records", |records|))
  {
    BatchFailsAtFirstBadRow(EnsureTable(db.table), records);
  }

  /** Create-if-absent: a successful run on an existing table keeps every row
      outside the batch; on a database without the table it creates one holding
      exactly the batch's keys. */
  lemma EnsureTableKeepsContents(payload: Payload, databaseUrl: Option<string>, db: Backend)
    requires Handler(payload, databaseUrl, db).0.statusCode == 200
    ensures var after := Handler(payload, databaseUrl, db).1;
            && payload.Decoded? && payload.parse.Records? && after.Some?
            && after.value.Keys == EnsureTable(db.table).Keys + BatchKeys(payload.parse.records)
            && (db.table.None? ==> after.value.Keys == BatchKeys(payload.parse.records))
            && (db.table.Some? ==>
                  forall k :: k in db.table.value && k !in BatchKeys(payload.parse.records) ==>
                                k in after.value && after.value[k] == db.table.value[k])
  {
    BatchKeysAndUntouched(EnsureTable(db.table), payload.parse.records);
  }

  /** The count is of rows, not of distinct keys: two rows with one key give a
      count of two and a single stored row, holding the second row's values. */
  lemma CountsRowsNotKeys(url: string, a: LoadRow, b: LoadRow)
    requires a.referenceNumber == b.referenceNumber
    ensures var (resp, after) := Handler(Decoded(Records([Row(a), Row(b)])), Some(url), Backend(None, None, None, ""));
            && resp.body.Uploaded? && resp.body.recordCount == 2
            && after == Some(map[a.referenceNumber := b])
  {
    var records := [Row(a), Row(b)];
    assert records[1..] == [Row(b)];
    assert records[1..][1..] == [];
    assert Upsert(map[], a) == map[a.referenceNumber := a];
    assert Upsert(map[a.referenceNumber := a], b) == map[a.referenceNumber := b];
    assert ApplyBatch(map[a.referenceNumber := b], []) == Success(map[a.referenceNumber := b]);
    assert ApplyBatch(map[a.referenceNumber := a], [Row(b)]) == Success(map[a.referenceNumber := b]);
    assert ApplyBatch(map[], records) == Success(map[a.referenceNumber := b]);
  }

  /** Keys are stored exactly as given: a batch row whose key is not upper case
      lands under that key, and the load endpoint can then never return it. */
  lemma StoredKeyVerbatim(payload: Payload, url: string, db: Backend, i: int, k: string)
    requires TableWellKeyed(db.table)
    requires payload.Decoded? && payload.parse.Records?
    requires IsLastFor(payload.parse.records, i, k)
    requires Handler(payload, Some(url), db).0.statusCode == 200
    ensures var after := Handler(payload, Some(url), db).1;
            && after.Some? && WellKeyed(after.value)
            && k in after.value && after.value[k] == payload.parse.records[i].row
  {
    var records := payload.parse.records;
    BatchLastWriteWins(EnsureTable(db.table), records, i, k);
    BatchKeepsWellKeyed(EnsureTable(db.table), records);
  }

  /** A row uploaded under a key that is not upper case is out of reach of the
      load endpoint, whatever reference number is asked for. */
  lemma UploadedLowerCaseKeyUnreachable(
    payload: Payload, url: string, db: Backend, i: int, k: string,
    supplied: string, cfg: Gate.Config, ref: Option<string>)
    requires TableWellKeyed(db.table)
    requires payload.Decoded? && payload.parse.Records?
    requires IsLastFor(payload.parse.records, i, k) && !IsUpperCase(k)
    requires Handler(payload, Some(url), db).0.statusCode == 200
    ensures var after := Handler(payload, Some(url), db).1;
            && after.Some?
            && LoadApi.GetLoad(supplied, cfg, ref, LoadApi.Db(after.value)) != Success(payload.parse.records[i].row)
  {
    StoredKeyVerbatim(payload, url, db, i, k);
    var after := Handler(payload, Some(url), db).1;
    LoadApi.NonUpperKeyUnreachable(supplied, cfg, ref, after.value, k);
  }

  /** An empty batch is not a success: executing the insert with no parameter sets
      raises, so the run answers 500 with that error and the table is unchanged. */
  lemma EmptyBatchFails(url: string, db: Backend)
    requires db.connectError.None?
    ensures Handler(Decoded(Records([])), Some(url), db)
            == (Response(500, UploadFailed(db.emptyBatchError)), db.table)
  {
  }
}

# Carrier verification and load API — a Dafny model of the decision logic

The repository serves two endpoints behind a shared `X-API-Key` check. It also has a batch job that fills the `loads` table from CSV. This project models the decision logic of those three parts as pure functions over immutable datatypes:

- **Carrier verification** (`carrier.py`), module `Carrier`. The API-key gate runs first. Then come the guards, in order: missing MC number (400), missing registry key (500), failed registry request (500). Last, the registry's JSON envelope `content[0].carrier` is read into `{verified, message, details}`. The registry request is an input, `Upstream`. It holds what the request would yield: a `RequestException` with its text, or the decoded JSON body. `VerifyCarrier` also returns the URL it requests, or `None` when no request is made.
- **Load lookup** (`load.py`), module `LoadApi`. The gate runs first. A given reference number is then validated as alphanumeric and upper-cased. After that come the lookup, and the mapping of exceptions to responses. `GetLoad` is the endpoint as written. `GetLoadIntended` is the documented behaviour (see Findings).
- **Batch upload** (`handler.py`), module `Ingest`. The table is a `map<string, LoadRow>` keyed by reference number (module `LoadStore`). Each record is upserted: a new key is inserted, and an existing key has its five non-key columns overwritten. The batch is all-or-nothing, and a successful run reports one count per record.

Support modules:
- `Wrappers`: `Option` and `Result`.
- `Text`: ASCII `upper`, `isalnum`, and decimal rendering of a count.
- `Json`: parsed JSON values, Python truthiness, `dict.get`, and Python type names.
- `Gate`: the configuration and the API-key check.

Decoding, CSV parsing and the database are inputs:
- `Payload` is the decoded and parsed CSV, or the error that decoding or parsing raised.
- `Record` is a row the database accepts, or one whose statement raises.
- `Backend` is the table (absent until first created), plus the errors that connecting or committing would raise.
- `Db` is the table as the load endpoint's session sees it, or the failure it raises.

Python exceptions are modelled where the handlers catch them. Reading an unexpectedly shaped registry body (a list where a dict is expected, a non-string flag, …) raises `AttributeError`, `TypeError` or `KeyError`. `Carrier.Fault` covers these, and `FaultText` renders them as Python's `str(e)` renders them. `Fault` can also express the `IndexError` of `x[0]` on an empty list or string. `Carrier.Interpret` proves that error never arises, because `content` is first checked to be truthy.

## Model

| member | source | states |
|---|---|---|
| Gate.VerifyApiKey | carrier_verification/app/api/carrier.py:30-35 | The key is accepted exactly when it equals the configured secret, and is then returned unchanged; otherwise the answer is 403 "Invalid API key". |
| Carrier.VerifyCarrier | carrier_verification/app/api/carrier.py:79-171 | The guards run in order: gate (403), then missing or empty MC number (400), then empty registry key (500 "FMCSA API key not configured"). A request is made exactly when all three pass, to a URL that embeds the MC number and the key. A failed request gives 500 "Error verifying carrier: " plus its cause. An unexpected body gives 500 "Unexpected error: " plus the exception text. |
| Carrier.NoRequestUnlessReady | carrier_verification/app/api/carrier.py:79-93 | When any guard fails, no request is made, and the answer is the same whatever the registry would have returned. |
| Carrier.Interpret | carrier_verification/app/api/carrier.py:120-129 | A body that is not an object raises "'<type>' object has no attribute 'get'". Every answer echoes the MC number. An MC-only answer is exactly "Carrier not found". A full answer comes only from a body with a non-empty carrier object at `content[0].carrier`, `content` being a list. Conversely, every such body is answered by the mapping of that carrier object, so a found carrier that is not active still gets its 200. Indexing `content[0]` never raises IndexError, because `content` was checked to be truthy. |
| Carrier.Describe | carrier_verification/app/api/carrier.py:129-157 | A found carrier succeeds exactly when both flags are absent or strings. Otherwise the failure names the type of the first unreadable flag, `allowedToOperate` being read first. `allowed_to_operate` holds iff `allowedToOperate` is present and equals `Y` or `y`. `verified` holds iff, in addition, `statusCode` is `A` or `a`. The message matches the verdict. The reported status code is the upper-cased `statusCode` field (default ""). Names, DOT number and address are copied verbatim, defaulting to "". |
| Carrier.InterpretFaults | carrier_verification/app/api/carrier.py:120-132 | For an object body malformed below the top level, the fault raised is Python's: a truthy dict `content` raises `KeyError(0)`, whose text is "0". A truthy number or bool `content` is not subscriptable. A `content[0]` that is not a dict, or a truthy `carrier` that is not a dict, has no attribute `get`. A truthy string `content` is indexed to a string, which has none either. |
| Carrier.NotFoundExactly | carrier_verification/app/api/carrier.py:120-126 | The answer is "Carrier not found", `verified=false`, with only the MC number in the details, exactly when `content` is missing or falsy, or `content[0]` has no truthy `carrier`. |
| Carrier.VerifiedExactly | carrier_verification/app/api/carrier.py:132-138 | A carrier is verified exactly when `content[0].carrier` reports `allowedToOperate` in {Y, y} and `statusCode` in {A, a}. This is an independent statement of the rule that does not mention `upper`. |
| Carrier.AnswerIsConsistent | carrier_verification/app/api/carrier.py:122-146 | Every successful answer echoes the MC number. Its message is one of the three fixed strings. "Carrier verified and active" appears iff `verified`, and "Carrier not found" iff the details are MC-only. A found carrier's status code is upper case. |
| Carrier.OnlyFirstEntryConsulted | carrier_verification/app/api/carrier.py:120-129 | Entries of `content` after the first never change the answer. |
| Carrier.NotActiveExactly | carrier_verification/app/api/carrier.py:129-146 | When every guard passes and the body holds a carrier object, the answer is 200 exactly when both flags can be upper-cased. A carrier that is not approved then gets `verified=false` with "Carrier not active or not allowed to operate" and full details. Otherwise the answer is a 500. |
| Carrier.CarrierForbiddenExactly | carrier_verification/app/api/carrier.py:30-41 | The carrier endpoint answers 403 "Invalid API key" exactly when the supplied key differs from the configured one. |
| Carrier.FailuresAfterRequest | carrier_verification/app/api/carrier.py:159-171 | Once the request is made, every failure is a 500. Its detail carries the request error's text, or the text of the exception raised while reading the body. |
| LoadStore.Upsert | data_uploads_lambda/app/handler.py:44-53 | An absent key is inserted. A present key has its five non-key columns overwritten and is not duplicated. No other key changes. A well-keyed table stays well keyed, and the key then holds exactly the new row. |
| LoadStore.Lookup | carrier_verification/app/api/load.py:85 | A row is found exactly when the key is given and present; a `None` key (`IS NULL`) never matches. The row found is the one stored under the key, and in a well-keyed table it carries the requested key. |
| LoadStore.LookupAfterUpsert | data_uploads_lambda/app/handler.py:44-53 | In a well-keyed table, a lookup of an upserted key returns exactly the upserted row. Lookups of every other key are unaffected. |
| LoadApi.NormalizeRef | carrier_verification/app/api/load.py:77-81 | A given reference number fails with 400 "Reference number must be alphanumeric" exactly when it is not alphanumeric, the empty string included. Otherwise it becomes its upper-cased form, which is alphanumeric and upper case. An absent one passes through as `None`. |
| LoadApi.GetLoad | carrier_verification/app/api/load.py:32-101 | The endpoint answers 200 exactly when the key passes, a reference number is given and alphanumeric, the table is readable, and it holds the upper-cased number. The row is then returned unchanged. Any other answer is 403, 400 or the generic 500, never 404. The answer is 400 exactly when the key passes and a given reference number is not alphanumeric. |
| LoadApi.LoadForbiddenExactly | carrier_verification/app/api/load.py:32-44 | The load endpoint, as written and as corrected, answers 403 "Invalid API key" exactly when the supplied key differs from the configured one. |
| LoadApi.CaseInsensitive | carrier_verification/app/api/load.py:77-85 | Reference numbers with the same upper-cased form get identical answers. |
| LoadApi.ValidationBeforeStore | carrier_verification/app/api/load.py:77-80 | A non-alphanumeric reference number is refused with 400, and the answer does not depend on the store. |
| LoadApi.AbsentReference | carrier_verification/app/api/load.py:77-85 | An absent reference number skips validation and is looked up as `None`. It is never refused with 400, and always ends in the generic 500. |
| LoadApi.NoCauseLeaked | carrier_verification/app/api/load.py:99-101 | Failures after validation answer the fixed "Internal server error", whatever their cause. When the store raises, an authorised request with a valid or absent reference number gets exactly that 500. |
| LoadApi.MissingLoadIs500 | carrier_verification/app/api/load.py:87-101 | As written, the 404 raised for a missing row is caught by `except Exception`, so the caller receives 500 "Internal server error". |
| LoadApi.MissingLoadExample | carrier_verification/app/api/load.py:83-101 | `abc123` against an empty table: the endpoint as written answers 500. The documented behaviour is 404 naming `ABC123`. |
| LoadApi.GetLoadIntended | carrier_verification/app/api/load.py:70-101 | With the documented exception mapping, a valid or absent reference number with no row gets 404, echoing the upper-cased number. Everything else agrees with the endpoint as written. |
| LoadApi.FoundKeyIsUpperCase | carrier_verification/app/api/load.py:81-98 | In a well-keyed table, every returned row's key is the upper-cased request, and so is upper case. |
| LoadApi.NonUpperKeyUnreachable | carrier_verification/app/api/load.py:81-85 | A row stored under a key that is not upper case is never returned. |
| Ingest.EnsureTable | data_uploads_lambda/app/handler.py:33-42 | `CREATE TABLE IF NOT EXISTS`: the create-if-absent promise: an existing table is kept as it is, contents included, and an absent one is created empty. A well-keyed or absent table gives a well-keyed one; its effect on a run is stated by `Ingest.EnsureTableKeepsContents`. |
| Ingest.ApplyBatch | data_uploads_lambda/app/handler.py:65 | A successful batch keeps every key the table had, because an upsert never deletes. Its failure and key behaviour are stated by `Ingest.BatchFailsAtFirstBadRow` and `Ingest.BatchKeysAndUntouched`. |
| Ingest.Handler | data_uploads_lambda/app/handler.py:13-83 | Every run answers 200 or 500. It answers 200 exactly when every step succeeds. A 500 carries an error body and leaves the table as it was. |
| Ingest.HandlerReportsFailingStep | data_uploads_lambda/app/handler.py:18-83 | The first step that raises decides the 500's error text, and the table is unchanged. A decoding error gives its own text, a missing `DATABASE_URL` gives `'DATABASE_URL'`, and a CSV error gives its text. A connection error gives its text, a rejected batch gives the first bad record's cause, and a failed commit gives the commit's error. |
| Ingest.EnsureTableKeepsContents | data_uploads_lambda/app/handler.py:33-42 | Create-if-absent: after a successful run, the table's keys are the old keys plus the batch's keys. On an existing table, every row outside the batch is kept unchanged. On a database without the table, the new table holds exactly the batch's keys. |
| Ingest.BatchFailsAtFirstBadRow | data_uploads_lambda/app/handler.py:65 | The batch fails exactly when some record raises, and then with the cause of the first such record. |
| Ingest.BatchKeysAndUntouched | data_uploads_lambda/app/handler.py:44-65 | After a successful batch, the table's keys are the old keys plus the batch's keys. Keys outside the batch keep their rows. |
| Ingest.BatchLastWriteWins | data_uploads_lambda/app/handler.py:44-65 | After a successful batch, each key holds the last batch row with that key. |
| Ingest.BatchKeepsWellKeyed | data_uploads_lambda/app/handler.py:44-53 | A successful batch keeps every row under its own reference number. |
| Ingest.HandlerIsAtomic | data_uploads_lambda/app/handler.py:56-83 | Every run answers 200 or 500. It answers 200 exactly when every step succeeds: the payload decodes, `DATABASE_URL` is set, the CSV gives at least one record, the database connects, every record is accepted and the commit goes through. A 500 carries an error body and leaves the table exactly as it was, even one that did not exist. A 200 means the whole batch applied, the table is that result, and `record_count` is the number of records. |
| Ingest.HandlerSucceeds | data_uploads_lambda/app/handler.py:69-74 | With a reachable database and a non-empty batch whose records are all accepted, the run answers 200 with "Successfully uploaded N records" and `record_count` N. |
| Ingest.CountsRowsNotKeys | data_uploads_lambda/app/handler.py:25-74 | Two records with one key give `record_count` 2, and a single stored row holding the second record. |
| Ingest.StoredKeyVerbatim | data_uploads_lambda/app/handler.py:44-47 | An uploaded row is stored under its reference number exactly as given, not upper-cased. This holds for a first upload that creates the table too. |
| Ingest.EmptyBatchFails | data_uploads_lambda/app/handler.py:65 | A CSV with no data rows makes the insert raise. The run answers 500 with that error, and the table is unchanged. |
| Ingest.UploadedLowerCaseKeyUnreachable | data_uploads_lambda/app/handler.py:45-46 | A row uploaded under a key that is not upper case cannot be fetched by the load endpoint with any reference number. This includes a first upload into a database without the table. |
| Text.NatToStringRoundTrip | data_uploads_lambda/app/handler.py:72 | The decimal rendering of the record count in the success message reads back as that count. |

## Left out

- HTTP routing, path/query binding, CORS, the serverless adapter, the process entry point, and the `/` and `/health` endpoints (`main.py`) are framework wiring.
- Framework-level rejection of a missing `X-API-Key` header happens before `verify_api_key` runs. The gate is modelled for a header that is present.
- The registry HTTP call is an input, `Upstream`. Its URL is modelled; its headers, timeout and `raise_for_status` are not. Any `RequestException` (transport, non-2xx, or undecodable JSON) is `RequestFailed` with its text. Undecodable JSON counts as a `RequestException` only with the `requests` library at version 2.27 or later, whose `JSONDecodeError` subclasses it; this is assumed. With older versions, that case would give "Unexpected error: …" instead.
- Settings loading (`config.py`) is not modelled. The two keys come in as `Gate.Config`.
- Engine, pool and session lifecycle (`database.py`) are not modelled. `Db` and `Backend` stand for what a session or connection would see or raise.
- Base64, UTF-8 and CSV decoding are library code. `Payload`/`CsvParse` are their outcome, and `Record` is a row the database accepts or rejects.
- The handler's failure causes are whatever text the raising library gives. The model carries them as given strings; the one it spells out is `KeyError('DATABASE_URL')`.
- An unreachable database, a bad connection string and a failing `CREATE TABLE` (`handler.py:61`) all appear as `Backend.connectError`. The last one fails at the same point in the order: after connecting, before the empty-batch check and the insert.
- The model assumes SQLAlchemy 2.x, in the same way the registry call assumes requests 2.27 or later. In 2.x a connection runs commit-as-you-go and has `Connection.commit()`, so nothing is stored unless the single `commit()` is reached. Under 1.4's legacy mode, text `CREATE` and `INSERT` statements autocommit, `Connection.commit()` does not exist, and the atomicity and empty-batch statements would not hold.
- SQL execution is modelled only by its effect on the keyed table. The model assumes transactional DDL, so a failed run also rolls back the table creation.
- An empty CSV: `Ingest.Handler` and `Ingest.EmptyBatchFails` treat it as a failure. With no parameter sets, the database library runs the statement once with its bind parameters unset, and that raises. The error text is the input `Backend.emptyBatchError`, since the library writes it. `Ingest.HandlerSucceeds` and `Ingest.RunSucceeds` require at least one record.
- Logging is not modelled.
- `Text.Upper`, `Text.IsAlnum`: ASCII approximations of Python's Unicode-aware `str.upper` and `str.isalnum`.
- `Json.Json`: JSON numbers are integers. A fractional number would have Python type name `float`, not `int`, in exception texts.
- `LoadStore.LoadRow`: `rate` is an integer stand-in for the floating-point column; `float(load.rate)` is the identity on it.

## Findings

| source | as written | input that shows it | evidently intended | confidence | as-written member | corrected member |
|---|---|---|---|---|---|---|
| carrier_verification/app/api/load.py:83-101 | The 404 for a missing row is raised inside `try`, and `except Exception` turns it into 500 "Internal server error". | A valid API key, reference number `abc123`, and an empty `loads` table. | 404 "The reference number ABC123 was not found. …", as the endpoint's docstring (lines 70-74) promises. | high; not executed | LoadApi.MissingLoadIs500 (with LoadApi.GetLoad and LoadApi.MissingLoadExample) | LoadApi.GetLoadIntended |

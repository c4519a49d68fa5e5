/** The load lookup endpoint: the API-key gate, validation and upper-casing of the
    reference number, the lookup, and the mapping of exceptions to responses. The
    endpoint as written turns its own 404 into a 500 (`GetLoad`); `GetLoadIntended`
    is the variant that lets the 404 through, as the endpoint documents. */
module LoadApi {
  import opened Wrappers
  import opened Text
  import opened Gate
  import opened LoadStore

  const MsgNotAlnum := "Reference number must be alphanumeric"
  const BadReference := HttpError(400, MsgNotAlnum)
  const InternalError := HttpError(500, "Internal server error")

  /** The table as the request's session sees it: readable, or failing (no
      connection, no table, ...) for some cause. */
  datatype Db = Db(rows: Store) | DbFailure(cause: string)

  /** An exception raised inside the `try`: the handler's own `HTTPException`, or
      any other exception. */
  datatype Raised = HttpRaised(error: HttpError) | OtherRaised(cause: string)

  /** How the f-string renders the (possibly absent) reference number. */
  function RefText(key: Option<string>): string {
    match key
    case None => "None"
    case Some(k) => k
  }

  function NotFoundError(key: Option<string>): HttpError {
    HttpError(404, "The reference number " + RefText(key)
                   + " was not found. Please check the reference number and try again.")
  }

  /** The check and upper-casing done on a reference number that was given; an
      absent one passes through untouched. */
  function NormalizeRef(ref: Option<string>): (r: Result<Option<string>, HttpError>)
    ensures r.Failure? <==> ref.Some? && !IsAlnum(ref.value)
    ensures r.Failure? ==> r.error == BadReference
    ensures r.Success? ==> (r.value.Some? <==> ref.Some?)
    ensures r.Success? && ref.Some? ==>
              && r.value.value == Upper(ref.value)
              && IsAlnum(r.value.value)
              && IsUpperCase(r.value.value)
  {
    match ref
    case None => Success(None)
    case Some(s) =>
      if !IsAlnum(s) then Failure(BadReference)
      else
        UpperKeepsAlnum(s);
        UpperIsUpperCase(s);
        Success(Some(Upper(s)))
  }

  /** The body of the `try`: query, raise 404 on no row, else the row. */
  function Retrieve(key: Option<string>, db: Db): Result<LoadRow, Raised> {
    match db
    case DbFailure(cause) => Failure(OtherRaised(cause))
    case Db(rows) =>
      match Lookup(rows, key)
      case None => Failure(HttpRaised(NotFoundError(key)))
      case Some(row) => Success(row)
  }

  /** `except Exception`: every exception, the 404 included, becomes the generic 500. */
  function CatchAll(r: Result<LoadRow, Raised>): Result<LoadRow, HttpError> {
    match r
    case Success(row) => Success(row)
    case Failure(_) => Failure(InternalError)
  }

  /** `get_load` as written, preceded by its `verify_api_key` dependency. */
  function GetLoad(supplied: string, cfg: Config, ref: Option<string>, db: Db): (r: Result<LoadRow, HttpError>)
    ensures r.Success? <==>
              && supplied == cfg.apiKey && ref.Some? && IsAlnum(ref.value)
              && db.Db? && Upper(ref.value) in db.rows
    ensures r.Success? ==> r.value == db.rows[Upper(ref.value)]
    ensures r.Failure? ==> r.error in {Forbidden, BadReference, InternalError}
    ensures supplied != cfg.apiKey ==> r == Failure(Forbidden)
    ensures r == Failure(BadReference) <==> supplied == cfg.apiKey && ref.Some? && !IsAlnum(ref.value)
  {
    match VerifyApiKey(supplied, cfg.apiKey)
    case Failure(e) => Failure(e)
    case Success(_) =>
      match NormalizeRef(ref)
      case Failure(e) => Failure(e)
      case Success(key) => CatchAll(Retrieve(key, db))
  }

  /** The exception mapping the endpoint documents: its own `HTTPException` is
      passed on, any other exception becomes the generic 500. */
  function CatchOthers(r: Result<LoadRow, Raised>): Result<LoadRow, HttpError> {
    match r
    case Success(row) => Success(row)
    case Failure(HttpRaised(e)) => Failure(e)
    case Failure(OtherRaised(_)) => Failure(InternalError)
  }

  /** `get_load` with the documented 404: a reference number with no row is
      answered 404, echoing the (upper-cased) reference number. */
  function GetLoadIntended(supplied: string, cfg: Config, ref: Option<string>, db: Db): (r: Result<LoadRow, HttpError>)
    ensures r.Success? <==> GetLoad(supplied, cfg, ref, db).Success?
    ensures r.Success? ==> r == GetLoad(supplied, cfg, ref, db)
    ensures supplied == cfg.apiKey && db.Db? && (ref.None? || IsAlnum(ref.value))
            && (ref.None? || Upper(ref.value) !in db.rows) ==>
              r == Failure(NotFoundError(if ref.None? then None else Some(Upper(ref.value))))
    ensures r.Failure? && r.error.status != 404 ==> r == GetLoad(supplied, cfg, ref, db)
    ensures !(supplied == cfg.apiKey && db.Db? && (ref.None? || (IsAlnum(ref.value) && Upper(ref.value) !in db.rows))) ==>
              r == GetLoad(supplied, cfg, ref, db)
  {
    match VerifyApiKey(supplied, cfg.apiKey)
    case Failure(e) => Failure(e)
    case Success(_) =>
      match NormalizeRef(ref)
      case Failure(e) => Failure(e)
      case Success(key) => CatchOthers(Retrieve(key, db))
  }

  /** Case variants of a reference number get identical answers. */
  lemma CaseInsensitive(supplied: string, cfg: Config, a: string, b: string, db: Db)
    requires Upper(a) == Upper(b)
    ensures GetLoad(supplied, cfg, Some(a), db) == GetLoad(supplied, cfg, Some(b), db)
  {
    UpperKeepsAlnum(a);
    UpperKeepsAlnum(b);
  }

  /** A reference number that is not alphanumeric is refused before the store is
      consulted: the answer does not depend on the store. */
  lemma ValidationBeforeStore(supplied: string, cfg: Config, s: string, db1: Db, db2: Db)
    requires !IsAlnum(s)
    ensures GetLoad(supplied, cfg, Some(s), db1) == GetLoad(supplied, cfg, Some(s), db2)
    ensures supplied == cfg.apiKey ==> GetLoad(supplied, cfg, Some(s), db1) == Failure(BadReference)
  {
  }

  /** An absent reference number skips validation and is looked up as it is;
      as no row has a null key, the caller gets the generic 500, never a 400. */
  lemma AbsentReference(supplied: string, cfg: Config, db: Db)
    requires supplied == cfg.apiKey
    ensures NormalizeRef(None) == Success(None)
    ensures GetLoad(supplied, cfg, None, db) == Failure(InternalError)
  {
  }

  /** Failures after validation never reveal their cause: a store that raises
      gives the generic 500 to every authorised, well-formed request. */
  lemma NoCauseLeaked(supplied: string, cfg: Config, ref: Option<string>, c1: string, c2: string)
    ensures GetLoad(supplied, cfg, ref, DbFailure(c1)) == GetLoad(supplied, cfg, ref, DbFailure(c2))
    ensures supplied == cfg.apiKey && (ref.None? || IsAlnum(ref.value)) ==>
              GetLoad(supplied, cfg, ref, DbFailure(c1)) == Failure(InternalError)
  {
  }

  /** As written, a well-formed reference number with no row is answered with the
      generic 500, not the documented 404. */
  lemma MissingLoadIs500(supplied: string, cfg: Config, s: string, rows: Store)
    requires supplied == cfg.apiKey && IsAlnum(s) && Upper(s) !in rows
    ensures Retrieve(Some(Upper(s)), Db(rows)) == Failure(HttpRaised(NotFoundError(Some(Upper(s)))))
    ensures GetLoad(supplied, cfg, Some(s), Db(rows)) == Failure(InternalError)
  {
  }

  /** A concrete witness of the discrepancy: `abc123` against an empty table. */
  lemma MissingLoadExample()
    ensures GetLoad("key", Config("key", ""), Some("abc123"), Db(map[])) == Failure(InternalError)
    ensures GetLoadIntended("key", Config("key", ""), Some("abc123"), Db(map[]))
            == Failure(NotFoundError(Some("ABC123")))
  {
    assert Upper("abc123") == "ABC123";
    MissingLoadIs500("key", Config("key", ""), "abc123", map[]);
  }

  /** In a well-keyed table, every row the endpoint returns has an upper-case key,
      the upper-cased request. */
  lemma FoundKeyIsUpperCase(supplied: string, cfg: Config, ref: Option<string>, rows: Store)
    requires WellKeyed(rows)
    ensures var r := GetLoad(supplied, cfg, ref, Db(rows));
            r.Success? ==> r.value.referenceNumber == Upper(ref.value) && IsUpperCase(r.value.referenceNumber)
  {
    if ref.Some? {
      UpperIsUpperCase(ref.value);
    }
  }

  /** A row stored under a key that is not upper case can never be fetched. */
  lemma NonUpperKeyUnreachable(supplied: string, cfg: Config, ref: Option<string>, rows: Store, k: string)
    requires WellKeyed(rows) && k in rows && !IsUpperCase(k)
    ensures GetLoad(supplied, cfg, ref, Db(rows)) != Success(rows[k])
  {
    FoundKeyIsUpperCase(supplied, cfg, ref, rows);
  }

  /** The load endpoint answers 403 exactly when the key is wrong. */
  lemma LoadForbiddenExactly(supplied: string, cfg: Config, ref: Option<string>, db: Db)
    ensures GetLoad(supplied, cfg, ref, db) == Failure(Forbidden) <==> supplied != cfg.apiKey
    ensures GetLoadIntended(supplied, cfg, ref, db) == Failure(Forbidden) <==> supplied != cfg.apiKey
  {
  }
}

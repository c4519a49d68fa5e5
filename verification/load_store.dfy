/** The `loads` table: one row per reference number, and the two operations the
    system performs on it, the upsert of the batch job and the equality lookup of
    the load endpoint. */
module LoadStore {
  import opened Wrappers

  /** A row of `loads`. `rate` is an integer stand-in for the floating-point column. */
  datatype LoadRow = LoadRow(
    referenceNumber: string,
    origin: string,
    destination: string,
    equipmentType: string,
    rate: int,
    commodity: string)

  /** The table, keyed by its primary key `reference_number`. */
  type Store = map<string, LoadRow>

  /** Every row sits under its own reference number. */
  ghost predicate WellKeyed(s: Store) {
    forall k :: k in s ==> s[k].referenceNumber == k
  }

  /** `INSERT ... ON CONFLICT (reference_number) DO UPDATE SET` of one row: a new
      key is inserted; an existing key has its five non-key columns overwritten. */
  function Upsert(s: Store, row: LoadRow): (r: Store)
    ensures r.Keys == s.Keys + {row.referenceNumber}
    ensures |r| == if row.referenceNumber in s then |s| else |s| + 1
    ensures forall k :: k in s && k != row.referenceNumber ==> r[k] == s[k]
    ensures WellKeyed(s) ==> r[row.referenceNumber] == row && WellKeyed(r)
  {
    var key := row.referenceNumber;
    if key in s then
      s[key := s[key].(origin := row.origin,
                       destination := row.destination,
                       equipmentType := row.equipmentType,
                       rate := row.rate,
                       commodity := row.commodity)]
    else
      s[key := row]
  }

  /** `filter(reference_number == key).first()`. A `None` key compares as
      `IS NULL`, which the non-null primary key never satisfies. */
  function Lookup(s: Store, key: Option<string>): (r: Option<LoadRow>)
    ensures r.Some? <==> key.Some? && key.value in s
    ensures r.Some? ==> r.value == s[key.value]
    ensures WellKeyed(s) && r.Some? ==> r.value.referenceNumber == key.value
  {
    match key
    case None => None
    case Some(k) => if k in s then Some(s[k]) else None
  }

  /** What an upsert writes, a lookup of its key reads back. */
  lemma LookupAfterUpsert(s: Store, row: LoadRow, k: string)
    requires WellKeyed(s)
    ensures Lookup(Upsert(s, row), Some(row.referenceNumber)) == Some(row)
    ensures k != row.referenceNumber ==> Lookup(Upsert(s, row), Some(k)) == Lookup(s, Some(k))
  {
  }
}

/**
 * The ledger's tables and their constraints (schema.py). A database is a set of rows; primary keys,
 * unique keys, references and checks are read off a row, so one definition serves every table.
 */
module Schema {
  import opened Text

  /**
   * How a server compares text: PostgreSQL exactly, MariaDB by what its collation makes of it
   * (utf8mb4_unicode_ci in bootstrap.py and instances.sh). Any collation may be given.
   */
  datatype Engine = Postgres | MariaDb(collation: string -> string)

  function Collated(engine: Engine, s: string): string {
    match engine
    case Postgres => s
    case MariaDb(collation) => collation(s)
  }

  predicate Same(engine: Engine, a: string, b: string) {
    Collated(engine, a) == Collated(engine, b)
  }

  datatype Table =
    | SourceT | ShopT | CardT | IngestRunT | RawArtifactT | ProcessingRunT
    | ExtractedRecordT | CandidateT | AttemptT | ObservationT | ReviewT

  datatype Key = Key(table: Table, id: int)

  /** A card's primary key is the UUID of its index; the index stands for it. */
  datatype Row =
    | Source(id: int, slug: string, state: string)
    | Shop(id: int, slug: string)
    | Card(id: int, tcg: string, setCode: string, cardNumber: string, rarity: string,
           edition: string, language: string)
    | IngestRun(id: int, sourceId: int, status: string)
    | RawArtifact(id: int, ingestRunId: int, sourceId: int, contentHash: string, byteSize: int)
    | ProcessingRun(id: int, rawArtifactId: int, processor: string, version: string,
                    configRef: string, attemptNo: int)
    | ExtractedRecord(id: int, processingRunId: int, rawArtifactId: int)
    | Candidate(id: int, extractedRecordId: int, shopId: int, sourceId: int, amount: int,
                currency: Option<string>, priceType: string, ruleVersion: string)
    | Attempt(id: int, candidateId: int, matchedCard: Option<int>, score: real, result: string)
    | Observation(id: int, candidateId: int, cardId: int, shopId: int, sourceId: int,
                  rawArtifactId: int, amount: int, currency: Option<string>, priceType: string,
                  condition: string, observedAt: int, key: string)
    | Review(id: int, ingestRunId: int, rawArtifactId: int, recordId: Option<int>,
             attemptId: Option<int>, reason: string, state: string, priority: int, lockVersion: int)

  function TableOf(r: Row): Table {
    match r
    case Source(_, _, _) => SourceT
    case Shop(_, _) => ShopT
    case Card(_, _, _, _, _, _, _) => CardT
    case IngestRun(_, _, _) => IngestRunT
    case RawArtifact(_, _, _, _, _) => RawArtifactT
    case ProcessingRun(_, _, _, _, _, _) => ProcessingRunT
    case ExtractedRecord(_, _, _) => ExtractedRecordT
    case Candidate(_, _, _, _, _, _, _, _) => CandidateT
    case Attempt(_, _, _, _, _) => AttemptT
    case Observation(_, _, _, _, _, _, _, _, _, _, _, _) => ObservationT
    case Review(_, _, _, _, _, _, _, _, _) => ReviewT
  }

  function PkOf(r: Row): Key {
    Key(TableOf(r), r.id)
  }

  /** The value of a table's one UNIQUE constraint, where it has one, as the server compares it. */
  datatype UniqueKey =
    | NoUnique
    | Slug(table: Table, slug: string)
    | CardAttributes(tcg: string, setCode: string, cardNumber: string, rarity: string,
                     edition: string, language: string)
    | SourceHash(sourceId: int, contentHash: string)
    | Processing(rawArtifactId: int, processor: string, version: string, configRef: string,
                 attemptNo: int)
    | RecordRule(extractedRecordId: int, ruleVersion: string)
    | Idempotency(key: string)

  function UniqueOf(engine: Engine, r: Row): UniqueKey {
    match r
    case Source(_, slug, _) => Slug(SourceT, Collated(engine, slug))
    case Shop(_, slug) => Slug(ShopT, Collated(engine, slug))
    case Card(_, tcg, setCode, number, rarity, edition, language) =>
      CardAttributes(Collated(engine, tcg), Collated(engine, setCode), Collated(engine, number),
                     Collated(engine, rarity), Collated(engine, edition), Collated(engine, language))
    case RawArtifact(_, _, source, hash, _) => SourceHash(source, Collated(engine, hash))
    case ProcessingRun(_, artifact, processor, version, config, attempt) =>
      Processing(artifact, Collated(engine, processor), Collated(engine, version), Collated(engine, config), attempt)
    case Candidate(_, record, _, _, _, _, _, rule) => RecordRule(record, Collated(engine, rule))
    case Observation(_, _, _, _, _, _, _, _, _, _, _, key) => Idempotency(Collated(engine, key))
    case _ => NoUnique
  }

  /** The rows every foreign key of a row points at; a NULL reference points nowhere. */
  function Refs(r: Row): set<Key> {
    match r
    case IngestRun(_, source, _) => {Key(SourceT, source)}
    case RawArtifact(_, run, source, _, _) => {Key(IngestRunT, run), Key(SourceT, source)}
    case ProcessingRun(_, artifact, _, _, _, _) => {Key(RawArtifactT, artifact)}
    case ExtractedRecord(_, run, artifact) => {Key(ProcessingRunT, run), Key(RawArtifactT, artifact)}
    case Candidate(_, record, shop, source, _, _, _, _) =>
      {Key(ExtractedRecordT, record), Key(ShopT, shop), Key(SourceT, source)}
    case Attempt(_, candidate, card, _, _) => {Key(CandidateT, candidate)} + Optional(CardT, card)
    case Observation(_, candidate, card, shop, source, artifact, _, _, _, _, _, _) =>
      {Key(CandidateT, candidate), Key(CardT, card), Key(ShopT, shop), Key(SourceT, source),
       Key(RawArtifactT, artifact)}
    case Review(_, run, artifact, record, attempt, _, _, _, _) =>
      {Key(IngestRunT, run), Key(RawArtifactT, artifact)}
        + Optional(ExtractedRecordT, record) + Optional(AttemptT, attempt)
    case _ => {}
  }

  function Optional(table: Table, id: Option<int>): set<Key> {
    if id.Some? then {Key(table, id.value)} else {}
  }

  predicate IsPriceType(engine: Engine, s: string) {
    Same(engine, s, "buy") || Same(engine, s, "sell")
  }

  /** The CHECK constraints, and NOT NULL for the currency, the one such column modelled as nullable. */
  predicate Checks(engine: Engine, r: Row) {
    match r
    case Source(_, _, state) => Same(engine, state, "active") || Same(engine, state, "paused")
                                || Same(engine, state, "stopped")
    case IngestRun(_, _, status) =>
      Same(engine, status, "succeeded") || Same(engine, status, "partial") || Same(engine, status, "failed")
      || Same(engine, status, "empty") || Same(engine, status, "running")
    case RawArtifact(_, _, _, _, size) => size >= 0
    case Candidate(_, _, _, _, amount, currency, priceType, _) =>
      currency.Some? && amount >= 0 && IsPriceType(engine, priceType)
    case Attempt(_, _, _, score, result) =>
      0.0 <= score <= 1.0 &&
      (Same(engine, result, "confirmed") || Same(engine, result, "rejected") || Same(engine, result, "ambiguous"))
    case Observation(_, _, _, _, _, _, amount, currency, priceType, _, _, _) =>
      currency.Some? && amount >= 0 && IsPriceType(engine, priceType)
    case Review(_, _, _, _, _, _, state, _, _) =>
      Same(engine, state, "pending") || Same(engine, state, "decided") || Same(engine, state, "dismissed")
    case _ => true
  }

  /** Two rows that cannot both be stored: same primary key or same unique key. */
  predicate Clash(engine: Engine, r: Row, q: Row) {
    PkOf(r) == PkOf(q) || (UniqueOf(engine, r) != NoUnique && UniqueOf(engine, r) == UniqueOf(engine, q))
  }

  /** What passes, or clashes, on PostgreSQL does so on MariaDB too. */
  lemma MariaIsLooser(engine: Engine, r: Row, q: Row)
    ensures Checks(Postgres, r) ==> Checks(engine, r)
    ensures Clash(Postgres, r, q) ==> Clash(engine, r, q)
  {
  }

  predicate Has(db: set<Row>, k: Key) {
    exists q :: q in db && PkOf(q) == k
  }

  predicate KeyHeld(engine: Engine, db: set<Row>, key: string) {
    exists q :: q in db && q.Observation? && Same(engine, q.key, key)
  }

  /** PRIMARY KEY and UNIQUE */
  ghost predicate Unique(engine: Engine, db: set<Row>) {
    forall r, q :: r in db && q in db && Clash(engine, r, q) ==> r == q
  }

  /** FOREIGN KEY */
  ghost predicate Closed(db: set<Row>) {
    forall r, k :: r in db && k in Refs(r) ==> Has(db, k)
  }

  /** CHECK */
  ghost predicate Checked(engine: Engine, db: set<Row>) {
    forall r :: r in db ==> Checks(engine, r)
  }

  ghost predicate Consistent(engine: Engine, db: set<Row>) {
    Unique(engine, db) && Closed(db) && Checked(engine, db)
  }

  lemma UniqueOnPostgres(engine: Engine, db: set<Row>)
    requires Unique(engine, db)
    ensures Unique(Postgres, db)
  {
    forall r, q | r in db && q in db && Clash(Postgres, r, q)
      ensures r == q
    {
      MariaIsLooser(engine, r, q);
    }
  }

  lemma ClosedUnion(a: set<Row>, b: set<Row>)
    requires Closed(a) && Closed(b)
    ensures Closed(a + b)
  {
    forall r, k | r in a + b && k in Refs(r)
      ensures Has(a + b, k)
    {
      HasMonotone(if r in a then a else b, a + b, k);
    }
  }

  lemma HasMonotone(a: set<Row>, b: set<Row>, k: Key)
    requires a <= b && Has(a, k)
    ensures Has(b, k)
  {
    var q :| q in a && PkOf(q) == k;
    assert q in b;
  }

  lemma KeyHeldMonotone(engine: Engine, a: set<Row>, b: set<Row>, key: string)
    requires a <= b && KeyHeld(engine, a, key)
    ensures KeyHeld(engine, b, key)
  {
    var q :| q in a && q.Observation? && Same(engine, q.key, key);
    assert q in b;
  }

  lemma ClosedAdd(db: set<Row>, row: Row)
    requires Closed(db) && forall k :: k in Refs(row) ==> Has(db, k)
    ensures Closed(db + {row})
  {
    forall r, k | r in db + {row} && k in Refs(r)
      ensures Has(db + {row}, k)
    {
      HasMonotone(db, db + {row}, k);
    }
  }

  lemma UniqueAdd(engine: Engine, db: set<Row>, row: Row)
    requires Unique(engine, db) && forall q :: q in db ==> !Clash(engine, row, q)
    ensures Unique(engine, db + {row})
  {
    assert forall q :: Clash(engine, q, row) ==> Clash(engine, row, q);
  }

  function Rows(rows: seq<Row>): set<Row> {
    set j | 0 <= j < |rows| :: rows[j]
  }

  lemma RowsAppend(rows: seq<Row>, row: Row)
    ensures Rows(rows + [row]) == Rows(rows) + {row}
  {
    assert forall j :: 0 <= j < |rows| ==> (rows + [row])[j] == rows[j];
    assert (rows + [row])[|rows|] == row;
  }

  lemma RowsPrefix(rows: seq<Row>, n: nat)
    requires n <= |rows|
    ensures Rows(rows[..n]) <= Rows(rows)
  {
  }
}

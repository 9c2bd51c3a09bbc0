/**
 * What one transaction of the workload writes: an ingested artifact (`build_batch`, `write_batch`
 * in workload.py) or a reparsed one (`_reparse_batch` in ingest.py). Each job keeps to the keys of
 * its own tag, writes every row after the rows it refers to, and repeats its columns consistently.
 */
module Jobs {
  import opened Text
  import opened Hash
  import opened Schema
  import opened Collation
  import opened Generate
  import opened Seeded
  import opened Trace
  import opened Workload
  import opened Spaces

  datatype Job = Ingest(order: Order) | Reparse(artifact: nat)

  function TagOf(job: Job): Tag {
    match job
    case Ingest(o) => Tag(o.writer, o.sequence)
    case Reparse(artifact) => Tag(REPARSE_WRITER, artifact + 1)
  }

  /** What the workload asks of a batch; an artifact can be reparsed when the seed stores it. */
  predicate Valid(job: Job, scale: Scale) {
    match job
    case Ingest(o) =>
      ValidTag(TagOf(job)) && o.writer != REPARSE_WRITER && o.rows <= RECORDS_PER_RUN && o.cards <= Cards(scale)
    case Reparse(artifact) => artifact < 14_000 * scale
  }

  function Size(job: Job): nat {
    match job
    case Ingest(o) => BatchSize(o.rows)
    case Reparse(_) => REPARSE_SIZE
  }

  predicate InJob(job: Job, p: Place) {
    p.index < match job
              case Ingest(o) => BatchCount(o.rows, p.table)
              case Reparse(_) => ReparseCount(p.table)
  }

  function PlaceAt(job: Job, j: nat): (p: Place)
    requires j < Size(job)
    ensures InJob(job, p)
  {
    match job
    case Ingest(o) => BatchPlace(o.rows, j)
    case Reparse(_) => ReparsePlace(j)
  }

  function RowIn(job: Job, p: Place, scale: Scale): (r: Row)
    requires InJob(job, p)
  {
    match job
    case Ingest(o) => BatchRow(o, p)
    case Reparse(artifact) => ReparseRow(artifact, p, scale)
  }

  /** A reparsed observation meets its own key in the seed; every other row is stored. */
  predicate Kept(job: Job, p: Place) {
    job.Reparse? ==> p.table != ObservationT
  }

  /** The `j`-th row a job writes. */
  function LineOf(job: Job, j: nat, scale: Scale): Row
    requires j < Size(job)
  {
    RowIn(job, PlaceAt(job, j), scale)
  }

  /** The rows the first `n` statements of a job store. */
  function RowsOf(job: Job, n: nat, scale: Scale): set<Row> {
    set j: nat | j < n && j < Size(job) && Kept(job, PlaceAt(job, j)) :: RowIn(job, PlaceAt(job, j), scale)
  }

  lemma RowsStep(job: Job, n: nat, scale: Scale)
    requires n < Size(job)
    ensures RowsOf(job, n + 1, scale) == RowsOf(job, n, scale)
              + if Kept(job, PlaceAt(job, n)) then {RowIn(job, PlaceAt(job, n), scale)} else {}
  {
    hide RowIn, PlaceAt, Kept, Size;
  }

  // --------------------------------------------------------- positions

  function Position(job: Job, p: Place): (j: nat)
    requires InJob(job, p)
    ensures j < Size(job) && PlaceAt(job, j) == p
  {
    match job
    case Ingest(o) =>
      var n := o.rows;
      (match p.table
       case IngestRunT => 0
       case RawArtifactT => 1
       case ProcessingRunT => 2
       case ExtractedRecordT => 3 + p.index
       case CandidateT => 3 + n + p.index
       case AttemptT => 3 + 2 * n + p.index
       case ObservationT => 3 + 4 * n + p.index
       case ReviewT => 3 + 5 * n + p.index)
    case Reparse(_) =>
      match p.table
      case ProcessingRunT => 0
      case ExtractedRecordT => 1 + p.index
      case CandidateT => 61 + p.index
      case AttemptT => 121 + p.index
      case ObservationT => 181 + p.index
  }

  lemma PlacesDiffer(job: Job, i: nat, j: nat)
    requires i < j < Size(job)
    ensures PlaceAt(job, i) != PlaceAt(job, j)
  {
  }

  /** `q` is a kept row of the job that is written before `p`. */
  predicate Before(job: Job, q: Place, p: Place) {
    InJob(job, q) && InJob(job, p) && Kept(job, q) && Position(job, q) < Position(job, p)
  }

  lemma BeforeStored(job: Job, q: Place, p: Place, scale: Scale)
    requires Before(job, q, p)
    ensures RowIn(job, q, scale) in RowsOf(job, Position(job, p), scale)
  {
    assert PlaceAt(job, Position(job, q)) == q;
  }

  // -------------------------------------------------------------- keys

  lemma CounterInRange(t: Table, o: Order, i: nat, tag: Tag)
    requires tag == Tag(o.writer, o.sequence)
    ensures i < RECORDS_PER_RUN ==> InRange(t, tag, 1, Id(t, o.writer, o.Counter(i)))
    ensures i < RECORDS_PER_RUN ==> InRange(t, tag, 2, Id(t, o.writer, o.Counter(i) * 2))
    ensures i < RECORDS_PER_RUN ==> InRange(t, tag, 2, Id(t, o.writer, o.Counter(i) * 2 + 1))
  {
  }

  /** Every stored row of a job has its keys in the space of the job's tag. */
  lemma OwnsItsRows(job: Job, p: Place, scale: Scale)
    requires Valid(job, scale) && InJob(job, p) && Kept(job, p)
    ensures Owns(TagOf(job), RowIn(job, p, scale))
  {
    RowIsCased(job, p, scale);
    hide Cased;
    match job
    case Ingest(o) => BatchOwned(o, p, scale);
    case Reparse(artifact) => ReparseOwned(artifact, p, scale);
  }

  lemma BatchOwned(o: Order, p: Place, scale: Scale)
    requires Valid(Ingest(o), scale) && InJob(Ingest(o), p)
    ensures OwnsKeys(Tag(o.writer, o.sequence), BatchRow(o, p))
  {
    hide H, PriceFor, ContentHash, InRange, IdempotencyKey, ObservationKey;
    var tag, i := Tag(o.writer, o.sequence), p.index;
    match p.table
    case ExtractedRecordT => CounterInRange(ExtractedRecordT, o, i, tag);
    case CandidateT =>
      CounterInRange(CandidateT, o, i, tag);
      CounterInRange(ExtractedRecordT, o, i, tag);
    case AttemptT => CounterInRange(AttemptT, o, i / 2, tag);
    case ObservationT =>
      CounterInRange(ObservationT, o, i, tag);
      KeyFieldsOf(o, i);
    case ReviewT => CounterInRange(ReviewT, o, 10 * i, tag);
    case _ =>
  }

  lemma KeyFieldsOf(o: Order, i: nat)
    ensures ObservationKey(o, i).BarFree() && ObservationKey(o, i).artifact == o.ArtifactId()
    ensures ObservationKey(o, i).row == i
  {
    hide H;
    BarFreeWords();
    DecimalRoundTrip(o.observed / 86_400);
  }

  lemma ReparseOwned(artifact: nat, p: Place, scale: Scale)
    requires InJob(Reparse(artifact), p) && Kept(Reparse(artifact), p)
    ensures OwnsKeys(Tag(REPARSE_WRITER, artifact + 1), ReparseRow(artifact, p, scale))
  {
    hide H, PriceFor, InRange, ObservationFields;
    var o, tag, i := ReparseOrder(artifact), Tag(REPARSE_WRITER, artifact + 1), p.index;
    match p.table
    case ExtractedRecordT => CounterInRange(ExtractedRecordT, o, i, tag);
    case CandidateT =>
      CounterInRange(CandidateT, o, i, tag);
      CounterInRange(ExtractedRecordT, o, i, tag);
    case AttemptT => CounterInRange(AttemptT, o, i, tag);
    case _ =>
  }

  /** Every text a job writes under a unique key keeps to one case. */
  lemma RowIsCased(job: Job, p: Place, scale: Scale)
    requires InJob(job, p)
    ensures Cased(RowIn(job, p, scale))
  {
    hide BatchRow, ReparseRow, Cased;
    match job
    case Ingest(o) => BatchIsCased(o, p);
    case Reparse(artifact) => ReparseIsCased(artifact, p, scale);
  }

  lemma BatchIsCased(o: Order, p: Place)
    requires InJob(Ingest(o), p)
    ensures Cased(BatchRow(o, p))
  {
    ProcessorWords();
    ContentHashIsCased(o.ArtifactId());
    KeyFieldsCased(o, p.index);
    hide H, PriceFor, ContentHash, IdempotencyKey, ObservationKey, NoCapitals, CasedKey;
    KeyIsCased(ObservationKey(o, p.index));
  }

  lemma KeyFieldsCased(o: Order, i: nat)
    ensures var k := ObservationKey(o, i);
            && NoCapitals(k.slug) && NoCapitals(k.priceType) && NoCapitals(k.date)
            && NoSmall(k.condition) && NoBar(k.condition)
  {
    CasedWords();
    SlugsAreCased();
    BarFreeWords();
    DecimalHasNoCase(o.observed / 86_400);
    hide H, Decimal, NoCapitals, NoSmall, NoBar;
  }

  lemma ReparseIsCased(artifact: nat, p: Place, scale: Scale)
    requires InJob(Reparse(artifact), p)
    ensures Cased(ReparseRow(artifact, p, scale))
  {
    ProcessorWords();
    hide H, PriceFor, ObservationFields, IdempotencyKey, NoCapitals, CasedKey;
    var i := artifact * RECORDS_PER_RUN + p.index;
    ReparseFieldsCased(i, scale);
    KeyIsCased(ObservationFields(i, scale).KeyFields());
  }

  lemma ReparseFieldsCased(i: nat, scale: Scale)
    ensures 1 <= ObservationFields(i, scale).sourceId <= 4
    ensures var k := ObservationFields(i, scale).KeyFields();
            && NoCapitals(k.slug) && NoCapitals(k.priceType) && NoCapitals(k.date)
            && NoSmall(k.condition) && NoBar(k.condition)
  {
    CasedWords();
    SlugsAreCased();
    BarFreeWords();
    DecimalHasNoCase(BASE_DAY + ObservationFields(i, scale).day);
    hide H, Decimal, PriceFor, CardFor, SlotOf, NoCapitals, NoSmall, NoBar;
  }

  lemma RowChecks(engine: Engine, job: Job, p: Place, scale: Scale)
    requires InJob(job, p)
    ensures Checks(engine, RowIn(job, p, scale))
  {
    hide H, ContentHash, CardFor, SourceOfRun, IdempotencyKey, DayText, Collated;
  }

  lemma RowTable(job: Job, p: Place, scale: Scale)
    requires InJob(job, p)
    ensures TableOf(RowIn(job, p, scale)) == p.table
  {
    hide H, PriceFor, ContentHash, ObservationFields, IdempotencyKey, ObservationKey;
  }

  /** Two stored rows of one job never claim the same primary or unique key. */
  lemma RowsDiffer(engine: Engine, job: Job, p: Place, q: Place, scale: Scale)
    requires Discerning(engine) && InJob(job, p) && InJob(job, q) && Kept(job, p) && Kept(job, q) && p != q
    ensures !Clash(engine, RowIn(job, p, scale), RowIn(job, q, scale))
  {
    hide RowIn, Clash, Cased;
    RowIsCased(job, p, scale);
    RowIsCased(job, q, scale);
    KeysDiffer(job, p, q, scale);
    if Clash(engine, RowIn(job, p, scale), RowIn(job, q, scale)) {
      CasedClash(engine, RowIn(job, p, scale), RowIn(job, q, scale));
    }
  }

  lemma KeysDiffer(job: Job, p: Place, q: Place, scale: Scale)
    requires InJob(job, p) && InJob(job, q) && Kept(job, p) && Kept(job, q) && p != q
    ensures !Clash(Postgres, RowIn(job, p, scale), RowIn(job, q, scale))
  {
    RowTable(job, p, scale);
    RowTable(job, q, scale);
    if p.table != q.table {
      hide RowIn;
      if Clash(Postgres, RowIn(job, p, scale), RowIn(job, q, scale)) {
        SameTable(RowIn(job, p, scale), RowIn(job, q, scale));
      }
    } else {
      match job
      case Ingest(o) => BatchRowsDiffer(o, p, q);
      case Reparse(artifact) => ReparseRowsDiffer(artifact, p, q, scale);
    }
  }

  lemma BatchRowsDiffer(o: Order, p: Place, q: Place)
    requires InJob(Ingest(o), p) && InJob(Ingest(o), q) && p.table == q.table && p.index != q.index
    ensures !Clash(Postgres, BatchRow(o, p), BatchRow(o, q))
  {
    hide H, PriceFor, ContentHash, IdempotencyKey, ObservationKey;
    if p.table == ObservationT && BatchRow(o, p).key == BatchRow(o, q).key {
      KeyFieldsOf(o, p.index);
      KeyFieldsOf(o, q.index);
      KeyInjective(ObservationKey(o, p.index), ObservationKey(o, q.index));
    }
  }

  lemma ReparseRowsDiffer(artifact: nat, p: Place, q: Place, scale: Scale)
    requires InJob(Reparse(artifact), p) && InJob(Reparse(artifact), q)
    requires p.table == q.table && p.index != q.index && p.table != ObservationT
    ensures !Clash(Postgres, ReparseRow(artifact, p, scale), ReparseRow(artifact, q, scale))
  {
    hide H, PriceFor, ObservationFields;
  }

  /**
   * Why a batch holds at most 60 records: beyond that, and only then, it runs into the identifiers
   * of the same writer's next batch.
   */
  lemma SixtyRecordsIsTheLimit(engine: Engine, o: Order, next: Order)
    requires next.writer == o.writer && next.sequence == o.sequence + 1 && next.rows > 0
    ensures (exists i, j :: 0 <= i < o.rows && 0 <= j < next.rows
                            && Clash(engine, RecordRow(o, i), RecordRow(next, j)))
            <==> o.rows > RECORDS_PER_RUN
  {
    if o.rows > RECORDS_PER_RUN {
      assert Clash(engine, RecordRow(o, RECORDS_PER_RUN), RecordRow(next, 0));
    }
  }

  // -------------------------------------------------------- references

  /** Stored by the seed, or by the job before it gets to `p`. */
  ghost predicate Available(job: Job, p: Place, k: Key, scale: Scale)
    requires InJob(job, p)
  {
    Has(Seed(scale), k) || Has(RowsOf(job, Position(job, p), scale), k)
  }

  lemma AvailableFrom(job: Job, q: Place, p: Place, k: Key, scale: Scale)
    requires Before(job, q, p) && PkOf(RowIn(job, q, scale)) == k
    ensures Available(job, p, k, scale)
  {
    BeforeStored(job, q, p, scale);
  }

  /** Whatever a stored row refers to is there before it. */
  lemma RefsAvailable(job: Job, p: Place, k: Key, scale: Scale)
    requires Valid(job, scale) && InJob(job, p) && Kept(job, p) && k in Refs(RowIn(job, p, scale))
    ensures Available(job, p, k, scale)
  {
    match job
    case Ingest(o) =>
      if k.table in {SourceT, ShopT, CardT} {
        BatchSeedRefs(o, p, k, scale);
      } else {
        BatchRefs(o, p, k, scale);
      }
    case Reparse(artifact) =>
      if k.table in {SourceT, ShopT, CardT, RawArtifactT} {
        ReparseSeedRefs(artifact, p, k, scale);
      } else {
        ReparseRefs(artifact, p, k, scale);
      }
  }

  lemma BatchSeedRefs(o: Order, p: Place, k: Key, scale: Scale)
    requires Valid(Ingest(o), scale) && InJob(Ingest(o), p) && k in Refs(BatchRow(o, p))
    requires k.table in {SourceT, ShopT, CardT}
    ensures Has(Seed(scale), k)
  {
    hide H, PriceFor, ContentHash, IdempotencyKey, ObservationKey, Seed, Has;
    SourcesAndShops(o.Source(), scale);
    if k.table == CardT {
      assert 0 <= k.id < Cards(scale);
      Stored(CardT, k.id, scale, k.id);
    }
  }

  /** The place of the row a batch row refers to. */
  function Referred(p: Place, k: Key): Place {
    match k.table
    case ExtractedRecordT => Place(ExtractedRecordT, if p.table == ReviewT then 10 * p.index else p.index)
    case CandidateT => Place(CandidateT, if p.table == AttemptT then p.index / 2 else p.index)
    case t => Place(t, 0)
  }

  lemma BatchRefs(o: Order, p: Place, k: Key, scale: Scale)
    requires Valid(Ingest(o), scale) && InJob(Ingest(o), p) && k in Refs(BatchRow(o, p))
    requires k.table !in {SourceT, ShopT, CardT}
    ensures Available(Ingest(o), p, k, scale)
  {
    BatchReferred(o, p, k);
    hide *;
    AvailableFrom(Ingest(o), Referred(p, k), p, k, scale);
  }

  lemma BatchReferred(o: Order, p: Place, k: Key)
    requires InJob(Ingest(o), p) && k in Refs(BatchRow(o, p)) && k.table !in {SourceT, ShopT, CardT}
    ensures Before(Ingest(o), Referred(p, k), p)
    ensures forall scale: Scale :: PkOf(RowIn(Ingest(o), Referred(p, k), scale)) == k
  {
    ReferredEarlier(o, p, k);
    ReferredKey(o, p, k);
  }

  lemma ReferredEarlier(o: Order, p: Place, k: Key)
    requires InJob(Ingest(o), p) && k in Refs(BatchRow(o, p)) && k.table !in {SourceT, ShopT, CardT}
    ensures Before(Ingest(o), Referred(p, k), p)
  {
    RefTables(o, p, k);
    hide Refs, BatchRow;
  }

  /** The tables a table of the batch refers to. */
  lemma RefTables(o: Order, p: Place, k: Key)
    requires InJob(Ingest(o), p) && k in Refs(BatchRow(o, p)) && k.table !in {SourceT, ShopT, CardT}
    ensures match p.table
            case RawArtifactT => k.table == IngestRunT
            case ProcessingRunT => k.table == RawArtifactT
            case ExtractedRecordT => k.table in {ProcessingRunT, RawArtifactT}
            case CandidateT => k.table == ExtractedRecordT
            case AttemptT => k.table == CandidateT
            case ObservationT => k.table in {CandidateT, RawArtifactT}
            case ReviewT => k.table in {IngestRunT, RawArtifactT, ExtractedRecordT}
            case _ => false
  {
    hide H, PriceFor, ContentHash, IdempotencyKey, ObservationKey;
  }

  lemma ReferredKey(o: Order, p: Place, k: Key)
    requires InJob(Ingest(o), p) && k in Refs(BatchRow(o, p)) && k.table !in {SourceT, ShopT, CardT}
    requires InJob(Ingest(o), Referred(p, k))
    ensures PkOf(BatchRow(o, Referred(p, k))) == k
  {
    hide H, PriceFor, ContentHash, IdempotencyKey, ObservationKey;
  }

  lemma ReparseSeedRefs(artifact: nat, p: Place, k: Key, scale: Scale)
    requires Valid(Reparse(artifact), scale) && InJob(Reparse(artifact), p) && Kept(Reparse(artifact), p)
    requires k in Refs(ReparseRow(artifact, p, scale)) && k.table in {SourceT, ShopT, CardT, RawArtifactT}
    ensures Has(Seed(scale), k)
  {
    hide H, PriceFor, IdempotencyKey, Seed, Has, SourceOfRun, CardFor, Condition, PriceType, DayOf, OffsetOf;
    var i := artifact * RECORDS_PER_RUN + p.index;
    SourcesAndShops(ObservationFields(i, scale).sourceId, scale);
    if k.table == CardT {
      assert 0 <= k.id < Cards(scale);
      Stored(CardT, k.id, scale, k.id);
    } else if k.table == RawArtifactT {
      Stored(RawArtifactT, artifact, scale, k.id);
    }
  }

  lemma ReparseRefs(artifact: nat, p: Place, k: Key, scale: Scale)
    requires InJob(Reparse(artifact), p) && Kept(Reparse(artifact), p)
    requires k in Refs(ReparseRow(artifact, p, scale)) && k.table !in {SourceT, ShopT, CardT, RawArtifactT}
    ensures Available(Reparse(artifact), p, k, scale)
  {
    ReparseReferred(artifact, p, k, scale);
    hide *;
    AvailableFrom(Reparse(artifact), Place(k.table, if k.table == ProcessingRunT then 0 else p.index), p, k, scale);
  }

  lemma ReparseReferred(artifact: nat, p: Place, k: Key, scale: Scale)
    requires InJob(Reparse(artifact), p) && Kept(Reparse(artifact), p)
    requires k in Refs(ReparseRow(artifact, p, scale)) && k.table !in {SourceT, ShopT, CardT, RawArtifactT}
    ensures var q := Place(k.table, if k.table == ProcessingRunT then 0 else p.index);
            Before(Reparse(artifact), q, p) && PkOf(RowIn(Reparse(artifact), q, scale)) == k
  {
    hide H, PriceFor, ObservationFields, ReparseObservation;
  }

  // --------------------------------------------------------- reparsing

  /**
   * Reparsing derives an observation of the seed again: every modelled column is the same, hence the
   * idempotency key too, but for the identifier and the candidate. When a row was collected and
   * created is not modelled; those times do differ.
   */
  lemma ReparseRepeats(artifact: nat, i: nat, scale: Scale)
    requires artifact < 14_000 * scale && i < RECORDS_PER_RUN
    ensures artifact * RECORDS_PER_RUN + i < Count(ObservationT, scale)
    ensures RowAt(ObservationT, artifact * RECORDS_PER_RUN + i, scale).Observation?
            && ReparseObservation(artifact, i, scale).Observation?
    ensures var again := ReparseObservation(artifact, i, scale);
            var stored := RowAt(ObservationT, artifact * RECORDS_PER_RUN + i, scale);
            stored.(id := again.id, candidateId := again.candidateId) == again
  {
    hide H, PriceFor, CardFor, SourceOfRun, IdempotencyKey, DayText, DayOf, OffsetOf, Condition, PriceType;
  }

  /**
   * What reparsing does store is read off the same observation: the candidate repeats its price,
   * source and shop, and is confirmed for its card, in a record of its artifact.
   */
  lemma ReparseReadsAgain(artifact: nat, i: nat, scale: Scale)
    requires artifact < 14_000 * scale && i < RECORDS_PER_RUN
    ensures artifact * RECORDS_PER_RUN + i < Count(ObservationT, scale)
    ensures var stored := RowAt(ObservationT, artifact * RECORDS_PER_RUN + i, scale);
            var e, c, a := ReparseRecord(artifact, i), ReparseCandidate(artifact, i, scale),
                           ReparseAttempt(artifact, i, scale);
            && stored.Observation? && e.ExtractedRecord? && c.Candidate? && a.Attempt?
            && c.amount == stored.amount && c.currency == stored.currency && c.priceType == stored.priceType
            && c.sourceId == stored.sourceId && c.shopId == stored.shopId
            && a.candidateId == c.id && a.matchedCard == Some(stored.cardId) && a.result == "confirmed"
            && c.extractedRecordId == e.id && e.rawArtifactId == stored.rawArtifactId
  {
    hide H, PriceFor, CardFor, SourceOfRun, IdempotencyKey, DayText, DayOf, OffsetOf, Condition, PriceType;
  }

  lemma ReparseKeyHeld(engine: Engine, artifact: nat, i: nat, scale: Scale)
    requires artifact < 14_000 * scale && i < RECORDS_PER_RUN
    ensures KeyHeld(engine, Seed(scale), ReparseObservation(artifact, i, scale).key)
  {
    hide RowAt, ReparseObservation;
    ReparseRepeats(artifact, i, scale);
    InSeed(ObservationT, artifact * RECORDS_PER_RUN + i, scale);
  }

  // --------------------------------------------------------- agreement

  /** `db` holds the seed and what the job has stored by the time it gets to `p`. */
  ghost predicate Reached(db: set<Row>, job: Job, p: Place, scale: Scale)
    requires InJob(job, p)
  {
    Unique(Postgres, db) && Seed(scale) <= db && RowsOf(job, Position(job, p), scale) <= db
  }

  lemma OnlyStored(db: set<Row>, r: Row)
    requires Unique(Postgres, db) && r in db
    ensures Only(db, PkOf(r), r)
  {
    forall q | q in db && PkOf(q) == PkOf(r)
      ensures q == r
    {
      assert Clash(Postgres, q, r);
    }
  }

  lemma OnlyBefore(db: set<Row>, job: Job, q: Place, p: Place, scale: Scale)
    requires Before(job, q, p) && Reached(db, job, p, scale)
    ensures Only(db, PkOf(RowIn(job, q, scale)), RowIn(job, q, scale))
  {
    BeforeStored(job, q, p, scale);
    OnlyStored(db, RowIn(job, q, scale));
  }

  /** The columns a stored row repeats agree with the rows it refers to. */
  lemma FitsWhereItGoes(db: set<Row>, job: Job, p: Place, scale: Scale)
    requires InJob(job, p) && Kept(job, p) && Reached(db, job, p, scale)
    ensures Fits(db, RowIn(job, p, scale))
  {
    RowTable(job, p, scale);
    match p.table
    case RawArtifactT => ArtifactFits(db, job, p, scale);
    case ExtractedRecordT => RecordFits(db, job, p, scale);
    case ObservationT => ObservationFits(db, job, p, scale);
    case ReviewT => ReviewFits(db, job, p, scale);
    case _ => hide RowIn;
  }

  lemma ArtifactFits(db: set<Row>, job: Job, p: Place, scale: Scale)
    requires InJob(job, p) && Reached(db, job, p, scale) && p.table == RawArtifactT
    ensures Fits(db, RowIn(job, p, scale))
  {
    OnlyBefore(db, job, Place(IngestRunT, 0), p, scale);
    hide Reached, ContentHash;
  }

  lemma RecordFits(db: set<Row>, job: Job, p: Place, scale: Scale)
    requires InJob(job, p) && Reached(db, job, p, scale) && p.table == ExtractedRecordT
    ensures Fits(db, RowIn(job, p, scale))
  {
    OnlyBefore(db, job, Place(ProcessingRunT, 0), p, scale);
    hide Reached, ContentHash;
  }

  lemma ObservationFits(db: set<Row>, job: Job, p: Place, scale: Scale)
    requires InJob(job, p) && Kept(job, p) && Reached(db, job, p, scale) && p.table == ObservationT
    ensures Fits(db, RowIn(job, p, scale))
  {
    hide Reached, Only, Fits, Position, RunRow, ArtifactRow, RecordRow, CandidateRow, ObservationRow;
    var a, e, c := Place(RawArtifactT, 0), Place(ExtractedRecordT, p.index), Place(CandidateT, p.index);
    BeforeObservation(job, p);
    OnlyBefore(db, job, a, p, scale);
    OnlyBefore(db, job, e, p, scale);
    OnlyBefore(db, job, c, p, scale);
    ObservationColumns(job.order, p.index);
    ObservationFitsBy(db, RowIn(job, p, scale), RowIn(job, c, scale), RowIn(job, e, scale), RowIn(job, a, scale));
  }

  lemma BeforeObservation(job: Job, p: Place)
    requires InJob(job, p) && Kept(job, p) && p.table == ObservationT
    ensures Before(job, Place(RawArtifactT, 0), p) && Before(job, Place(ExtractedRecordT, p.index), p)
            && Before(job, Place(CandidateT, p.index), p)
  {
  }

  lemma ObservationColumns(o: Order, i: nat)
    ensures ObservationRow(o, i).Observation? && CandidateRow(o, i).Candidate? && RecordRow(o, i).ExtractedRecord?
            && ArtifactRow(o).RawArtifact?
    ensures var v, c := ObservationRow(o, i), CandidateRow(o, i);
            && Key(CandidateT, v.candidateId) == PkOf(c)
            && Key(ExtractedRecordT, c.extractedRecordId) == PkOf(RecordRow(o, i))
            && Key(RawArtifactT, v.rawArtifactId) == PkOf(ArtifactRow(o))
            && ArtifactRow(o).sourceId == v.sourceId == c.sourceId && RecordRow(o, i).rawArtifactId == v.rawArtifactId
            && c.shopId == v.shopId
            && c.amount == v.amount && c.currency == v.currency && c.priceType == v.priceType
  {
    hide H, PriceFor, ContentHash, IdempotencyKey, ObservationKey;
  }

  lemma ReviewFits(db: set<Row>, job: Job, p: Place, scale: Scale)
    requires InJob(job, p) && Reached(db, job, p, scale) && p.table == ReviewT
    ensures Fits(db, RowIn(job, p, scale))
  {
    hide Reached, Position, ContentHash, H;
    BeforeReview(job, p);
    OnlyBefore(db, job, Place(RawArtifactT, 0), p, scale);
    OnlyBefore(db, job, Place(ExtractedRecordT, 10 * p.index), p, scale);
  }

  lemma BeforeReview(job: Job, p: Place)
    requires InJob(job, p) && p.table == ReviewT
    ensures Before(job, Place(RawArtifactT, 0), p) && Before(job, Place(ExtractedRecordT, 10 * p.index), p)
  {
  }
}

/**
 * The batch loops of `daily_ingest` and `reparse` (ingest.py) over one connection, on a ledger in
 * any state its writers can have left it in.
 */
module Ingestion {
  import opened Hash
  import opened Schema
  import opened Collation
  import opened Store
  import opened Append
  import opened Generate
  import opened Workload
  import opened Spaces
  import opened Jobs
  import opened Ledger
  import opened Writer

  const DAILY_WRITER := 40

  function InOrder(job: Job, scale: Scale): seq<Row> {
    seq(Size(job), j requires 0 <= j < Size(job) => LineOf(job, j, scale))
  }

  /** Nothing committed is in the way of a batch under a new tag. */
  lemma ApartFromQuiet(engine: Engine, db: set<Row>, log: map<Tag, Job>, job: Job, n: nat, q: Row, scale: Scale)
    requires Discerning(engine)
    requires Quiet(db, log, scale) && Valid(job, scale) && TagOf(job) !in log
    requires n < Size(job) && Kept(job, PlaceAt(job, n)) && q in db + RowsOf(job, n, scale)
    ensures !Clash(engine, LineOf(job, n, scale), q)
  {
    hide RowIn, RowsOf, Seed, Valid, InJob, Kept, PlaceAt, Size, Clash;
    if q in RowsOf(job, n, scale) {
      OwnRowsApart(engine, job, n, q, scale);
    } else if q in Seed(scale) {
      SeedRowsApart(engine, job, PlaceAt(job, n), q, scale);
    } else {
      var t :| t in log && q in RowsOf(log[t], Size(log[t]), scale);
      RowsApart(engine, job, PlaceAt(job, n), log[t], Size(log[t]), q, scale);
    }
  }

  lemma RefsStored(db: set<Row>, log: map<Tag, Job>, job: Job, n: nat, k: Key, scale: Scale)
    requires Quiet(db, log, scale) && Valid(job, scale)
    requires n < Size(job) && Kept(job, PlaceAt(job, n)) && k in Refs(LineOf(job, n, scale))
    ensures Has(db + RowsOf(job, n, scale), k)
  {
    hide RowIn, RowsOf, Seed, Valid, InJob, Kept, PlaceAt, Size, Refs, Has, LogRows;
    RefsAvailable(job, PlaceAt(job, n), k, scale);
    NextPosition(job, n);
    if Has(Seed(scale), k) {
      HasMonotone(Seed(scale), db + RowsOf(job, n, scale), k);
    } else {
      HasMonotone(RowsOf(job, n, scale), db + RowsOf(job, n, scale), k);
    }
  }

  lemma LineGoesIn(engine: Engine, db: set<Row>, log: map<Tag, Job>, job: Job, n: nat, skip: bool, scale: Scale)
    requires Discerning(engine)
    requires Quiet(db, log, scale) && Valid(job, scale) && TagOf(job) !in log
    requires n < Size(job) && Kept(job, PlaceAt(job, n))
    ensures Alone(engine, db + RowsOf(job, n, scale), LineOf(job, n, scale), skip) == Inserted
  {
    hide RowIn, RowsOf, Seed, Valid, InJob, Kept, PlaceAt, Size, Refs, Has, Clash, Checks, Answer, Quiet, LineOf;
    var view, row := db + RowsOf(job, n, scale), LineOf(job, n, scale);
    LineChecks(engine, job, n, scale);
    forall q | q in view + {}
      ensures !Clash(engine, row, q)
    {
      ApartFromQuiet(engine, db, log, job, n, q, scale);
    }
    forall k | k in Refs(row)
      ensures Has(view, k)
    {
      RefsStored(db, log, job, n, k, scale);
    }
    AnswerFine(engine, view, {}, Statement(row, if skip then OnConflict else Plain));
  }

  lemma LineChecks(engine: Engine, job: Job, n: nat, scale: Scale)
    requires n < Size(job)
    ensures Checks(engine, LineOf(job, n, scale))
  {
    hide RowIn, PlaceAt, Checks, InJob;
    RowChecks(engine, job, PlaceAt(job, n), scale);
  }

  /** The first `n` rows of a batch, all of them kept, go in one after the other. */
  lemma {:induction false} LinesGoIn(engine: Engine, db: set<Row>, log: map<Tag, Job>, job: Job, n: nat,
                                     skip: bool, scale: Scale)
    requires Discerning(engine)
    requires Quiet(db, log, scale) && Valid(job, scale) && TagOf(job) !in log && n <= Size(job)
    requires forall j: nat :: j < n ==> Kept(job, PlaceAt(job, j))
    ensures Executed(engine, db, 0, InOrder(job, scale)[..n], skip) == Done(db + RowsOf(job, n, scale), n)
  {
    hide Alone, RowIn, Seed, Valid, PlaceAt, Kept, Size, Quiet;
    var all := InOrder(job, scale);
    if n == 0 {
      assert all[..0] == [] && RowsOf(job, 0, scale) == {};
    } else {
      LinesGoIn(engine, db, log, job, n - 1, skip, scale);
      LineGoesIn(engine, db, log, job, n - 1, skip, scale);
      RowsStep(job, n - 1, scale);
      hide RowsOf, Executed;
      OneMore(engine, db, all, n - 1, db + RowsOf(job, n - 1, scale), n - 1, skip);
    }
  }

  /** The statements between two points of a batch, from the rows stored by then. */
  lemma StretchGoesIn(engine: Engine, db: set<Row>, log: map<Tag, Job>, job: Job, m: nat, n: nat, skip: bool,
                      scale: Scale)
    requires Discerning(engine)
    requires Quiet(db, log, scale) && Valid(job, scale) && TagOf(job) !in log && m <= n <= Size(job)
    requires forall j: nat :: j < n ==> Kept(job, PlaceAt(job, j))
    ensures Executed(engine, db + RowsOf(job, m, scale), 0, InOrder(job, scale)[m..n], skip)
            == Done(db + RowsOf(job, n, scale), n - m)
  {
    hide Executed, RowsOf, Seed, Valid, PlaceAt, Kept, Size, Quiet, LineOf;
    var all := InOrder(job, scale);
    LinesGoIn(engine, db, log, job, m, skip, scale);
    LinesGoIn(engine, db, log, job, n, skip, scale);
    assert all[..n] == all[..m] + all[m..n];
    ExecutedAppend(engine, db, 0, all[..m], all[m..n], skip);
    CountShifts(engine, db + RowsOf(job, m, scale), 0, m, all[m..n], skip);
  }

  /** `build_batch`'s lists, in the order `write_batch` takes them, are the ledger's program. */
  lemma BatchInOrder(o: Order, scale: Scale)
    ensures var b, all, n := BatchOf(o), InOrder(Ingest(o), scale), o.rows;
            && Size(Ingest(o)) == 3 + 5 * n + Reviews(n)
            && Flat(Leading(b)) == all[..3 + 4 * n]
            && b.observations == all[3 + 4 * n..3 + 5 * n] && b.reviews == all[3 + 5 * n..]
  {
    hide Leading, Flat, InOrder, Position, RowIn, BatchOf, ListOf, StartsAt, Reviews;
    var b, n := BatchOf(o), o.rows;
    OrderLength(Ingest(o), scale);
    BatchLists(o, scale);
    Positions(o);
    LeadingInOrder(o, scale);
    TableLines(Ingest(o), ObservationT, 3 + 4 * n, b.observations, scale);
    TableLines(Ingest(o), ReviewT, 3 + 5 * n, b.reviews, scale);
  }

  lemma LeadingInOrder(o: Order, scale: Scale)
    ensures |InOrder(Ingest(o), scale)| >= 3 + 4 * o.rows
    ensures Flat(Leading(BatchOf(o))) == InOrder(Ingest(o), scale)[..3 + 4 * o.rows]
  {
    hide Leading, Flat, InOrder, BatchOf;
    FlatLeading(BatchOf(o));
    FirstLists(o, scale);
    NextLists(o, scale);
    var all, n := InOrder(Ingest(o), scale), o.rows;
    assert all[..3 + 4 * n] == all[..3 + n] + all[3 + n..3 + 2 * n] + all[3 + 2 * n..3 + 4 * n];
  }

  lemma FirstLists(o: Order, scale: Scale)
    ensures var b, all := BatchOf(o), InOrder(Ingest(o), scale);
            |all| >= 3 + o.rows
            && b.ingestRun + b.rawArtifact + b.processingRun + b.records == all[..3 + o.rows]
  {
    hide InOrder, Position, RowIn, BatchOf, ListOf, StartsAt, Reviews;
    var b, all, n := BatchOf(o), InOrder(Ingest(o), scale), o.rows;
    BatchLists(o, scale);
    Positions(o);
    TableLines(Ingest(o), IngestRunT, 0, b.ingestRun, scale);
    TableLines(Ingest(o), RawArtifactT, 1, b.rawArtifact, scale);
    TableLines(Ingest(o), ProcessingRunT, 2, b.processingRun, scale);
    TableLines(Ingest(o), ExtractedRecordT, 3, b.records, scale);
    assert all[0..1] + all[1..2] + all[2..3] == all[..3];
    assert all[..3] + all[3..3 + n] == all[..3 + n];
  }

  lemma NextLists(o: Order, scale: Scale)
    ensures var b, all, n := BatchOf(o), InOrder(Ingest(o), scale), o.rows;
            |all| >= 3 + 4 * n
            && b.candidates == all[3 + n..3 + 2 * n] && b.attempts == all[3 + 2 * n..3 + 4 * n]
  {
    hide InOrder, Position, RowIn, BatchOf, ListOf, StartsAt, Reviews;
    BatchLists(o, scale);
    Positions(o);
    TableLines(Ingest(o), CandidateT, 3 + o.rows, BatchOf(o).candidates, scale);
    TableLines(Ingest(o), AttemptT, 3 + 2 * o.rows, BatchOf(o).attempts, scale);
  }

  function CountOf(job: Job, t: Table): nat {
    match job
    case Ingest(o) => BatchCount(o.rows, t)
    case Reparse(_) => ReparseCount(t)
  }

  /** The list of a table in a batch. */
  ghost predicate ListOf(job: Job, t: Table, rows: seq<Row>, scale: Scale) {
    |rows| == CountOf(job, t) && forall i :: 0 <= i < |rows| ==> rows[i] == RowIn(job, Place(t, i), scale)
  }

  lemma BatchLists(o: Order, scale: Scale)
    ensures var b, job := BatchOf(o), Ingest(o);
            && ListOf(job, IngestRunT, b.ingestRun, scale) && ListOf(job, RawArtifactT, b.rawArtifact, scale)
            && ListOf(job, ProcessingRunT, b.processingRun, scale) && ListOf(job, ExtractedRecordT, b.records, scale)
            && ListOf(job, CandidateT, b.candidates, scale) && ListOf(job, AttemptT, b.attempts, scale)
            && ListOf(job, ObservationT, b.observations, scale) && ListOf(job, ReviewT, b.reviews, scale)
  {
    hide RunRow, ArtifactRow, ProcessingRow, RecordRow, CandidateRow, AttemptRow, ObservationRow, ReviewRow;
  }

  /** Where the list of a table starts in the program. */
  ghost predicate StartsAt(job: Job, t: Table, at: nat) {
    at + CountOf(job, t) <= Size(job) &&
    forall i: nat :: i < CountOf(job, t) ==> Position(job, Place(t, i)) == at + i
  }

  lemma Positions(o: Order)
    ensures var n, job := o.rows, Ingest(o);
            && StartsAt(job, IngestRunT, 0) && StartsAt(job, RawArtifactT, 1) && StartsAt(job, ProcessingRunT, 2)
            && StartsAt(job, ExtractedRecordT, 3) && StartsAt(job, CandidateT, 3 + n)
            && StartsAt(job, AttemptT, 3 + 2 * n) && StartsAt(job, ObservationT, 3 + 4 * n)
            && StartsAt(job, ReviewT, 3 + 5 * n)
  {
  }

  lemma TableLines(job: Job, t: Table, at: nat, rows: seq<Row>, scale: Scale)
    requires ListOf(job, t, rows, scale) && StartsAt(job, t, at)
    ensures at + CountOf(job, t) <= |InOrder(job, scale)|
    ensures rows == InOrder(job, scale)[at..at + CountOf(job, t)]
  {
    hide Position, RowIn, PlaceAt, Size;
    forall i | 0 <= i < |rows|
      ensures LineOf(job, at + i, scale) == rows[i]
    {
      assert PlaceAt(job, Position(job, Place(t, i))) == Place(t, i);
    }
  }

  lemma FlatLeading(b: Batch)
    ensures Flat(Leading(b))
            == b.ingestRun + b.rawArtifact + b.processingRun + b.records + b.candidates + b.attempts
  {
    var p := Leading(b);
    assert p[..5][..4] == p[..4] && p[..4][..3] == p[..3] && p[..3][..2] == p[..2] && p[..2][..1] == p[..1];
    assert p[..1][..0] == [];
    assert Flat(p[..1]) == b.ingestRun;
    assert Flat(p[..3]) == Flat(p[..1]) + b.rawArtifact + b.processingRun;
    assert Flat(p[..5]) == Flat(p[..3]) + b.records + b.candidates;
  }

  /**
   * On a quiet ledger a batch under a new tag goes through on either engine, in either form: all its
   * rows are stored and nothing else.
   */
  lemma BatchGoesThrough(db: set<Row>, log: map<Tag, Job>, o: Order, engine: Engine, idempotent: bool, kept: nat,
                         scale: Scale)
    requires Discerning(engine)
    requires Quiet(db, log, scale) && Valid(Ingest(o), scale) && TagOf(Ingest(o)) !in log && kept <= o.rows
    ensures WriteForm(engine, db, BatchOf(o), idempotent, kept)
            == Done(db + RowsOf(Ingest(o), Size(Ingest(o)), scale), Reviews(o.rows))
  {
    hide RowsOf, Quiet, Valid, Executed, InOrder, Alone, BatchOf, Flat, Leading, Size;
    var job, b, n := Ingest(o), BatchOf(o), o.rows;
    var all := InOrder(job, scale);
    BatchInOrder(o, scale);
    assert |b.observations| == n by {
      Lengths(o);
    }
    assert |all| == Size(job) && all[0..3 + 4 * n] == all[..3 + 4 * n]
      && all[3 + 5 * n..] == all[3 + 5 * n..Size(job)] by {
      OrderLength(job, scale);
    }
    assert db + RowsOf(job, 0, scale) == db by {
      NoRowsYet(job, scale);
    }
    StretchGoesIn(engine, db, log, job, 0, 3 + 4 * n, false, scale);
    StretchGoesIn(engine, db, log, job, 3 + 4 * n, 3 + 5 * n, false, scale);
    StretchGoesIn(engine, db, log, job, 3 + 4 * n, 3 + 5 * n, true, scale);
    StretchGoesIn(engine, db, log, job, 3 + 5 * n, Size(job), false, scale);
  }

  lemma Lengths(o: Order)
    ensures |BatchOf(o).observations| == o.rows
  {
  }

  lemma OrderLength(job: Job, scale: Scale)
    ensures |InOrder(job, scale)| == Size(job)
  {
  }

  lemma NoRowsYet(job: Job, scale: Scale)
    ensures RowsOf(job, 0, scale) == {}
  {
  }

  // ------------------------------------------------------- table by table

  function RowsIn(db: set<Row>, t: Table): set<Row> {
    set r | r in db && TableOf(r) == t
  }

  /** The first `m` rows a job has for a table. */
  function Lines(job: Job, t: Table, m: nat, scale: Scale): set<Row> {
    set i: nat | i < m && InJob(job, Place(t, i)) :: RowIn(job, Place(t, i), scale)
  }

  lemma {:induction false} LinesAreDistinct(job: Job, t: Table, m: nat, scale: Scale)
    requires m <= CountOf(job, t) && Kept(job, Place(t, 0))
    ensures |Lines(job, t, m, scale)| == m
  {
    hide RowIn, TableOf;
    if m == 0 {
      assert Lines(job, t, 0, scale) == {};
    } else {
      LinesAreDistinct(job, t, m - 1, scale);
      LastLineIsNew(job, t, m - 1, scale);
    }
  }

  lemma LastLineIsNew(job: Job, t: Table, m: nat, scale: Scale)
    requires m < CountOf(job, t) && Kept(job, Place(t, 0))
    ensures InJob(job, Place(t, m)) && RowIn(job, Place(t, m), scale) !in Lines(job, t, m, scale)
    ensures Lines(job, t, m + 1, scale) == Lines(job, t, m, scale) + {RowIn(job, Place(t, m), scale)}
  {
    hide RowIn, TableOf, Kept;
    forall i: nat | i < m && InJob(job, Place(t, i))
      ensures RowIn(job, Place(t, i), scale) != RowIn(job, Place(t, m), scale)
    {
      KeptAlike(job, t, i, m);
      RowsUnequal(job, Place(t, i), Place(t, m), scale);
    }
  }

  lemma KeptAlike(job: Job, t: Table, i: nat, m: nat)
    requires Kept(job, Place(t, 0))
    ensures Kept(job, Place(t, i)) && Kept(job, Place(t, m))
  {
  }

  lemma RowsUnequal(job: Job, p: Place, q: Place, scale: Scale)
    requires InJob(job, p) && InJob(job, q) && Kept(job, p) && Kept(job, q) && p != q
    ensures RowIn(job, p, scale) != RowIn(job, q, scale)
  {
    hide RowIn, InJob, Kept, UniqueOf, TableOf;
    KeysDiffer(job, p, q, scale);
  }

  lemma RowsInJob(job: Job, t: Table, scale: Scale)
    requires Kept(job, Place(t, 0))
    ensures RowsIn(RowsOf(job, Size(job), scale), t) == Lines(job, t, CountOf(job, t), scale)
  {
    hide RowIn, Size, PlaceAt;
    forall r | r in Lines(job, t, CountOf(job, t), scale)
      ensures r in RowsIn(RowsOf(job, Size(job), scale), t)
    {
      var i: nat :| i < CountOf(job, t) && r == RowIn(job, Place(t, i), scale);
      RowTable(job, Place(t, i), scale);
      assert PlaceAt(job, Position(job, Place(t, i))) == Place(t, i);
    }
    forall r | r in RowsIn(RowsOf(job, Size(job), scale), t)
      ensures r in Lines(job, t, CountOf(job, t), scale)
    {
      var j: nat :| j < Size(job) && Kept(job, PlaceAt(job, j)) && r == RowIn(job, PlaceAt(job, j), scale);
      RowTable(job, PlaceAt(job, j), scale);
      assert PlaceAt(job, j) == Place(t, PlaceAt(job, j).index);
    }
  }

  lemma NewLines(engine: Engine, db: set<Row>, log: map<Tag, Job>, job: Job, scale: Scale)
    requires Discerning(engine)
    requires Quiet(db, log, scale) && Valid(job, scale) && TagOf(job) !in log
    ensures db !! RowsOf(job, Size(job), scale)
  {
    hide RowIn, Seed, Valid, Quiet, PlaceAt, Kept, Size;
    forall r | r in RowsOf(job, Size(job), scale)
      ensures r !in db
    {
      var j: nat :| j < Size(job) && Kept(job, PlaceAt(job, j)) && r == LineOf(job, j, scale);
      if r in db {
        ApartFromQuiet(engine, db, log, job, j, r, scale);
      }
    }
  }

  /** A job under a new tag adds its own rows to a table, and all of them are new. */
  lemma TableGrows(engine: Engine, db: set<Row>, log: map<Tag, Job>, job: Job, t: Table, scale: Scale)
    requires Discerning(engine)
    requires Quiet(db, log, scale) && Valid(job, scale) && TagOf(job) !in log && Kept(job, Place(t, 0))
    ensures |RowsIn(db + RowsOf(job, Size(job), scale), t)| == |RowsIn(db, t)| + CountOf(job, t)
  {
    hide RowIn, Seed, Quiet, Valid, LogRows, PlaceAt, Size, RowsOf;
    var added := RowsOf(job, Size(job), scale);
    NewLines(engine, db, log, job, scale);
    assert RowsIn(db + added, t) == RowsIn(db, t) + RowsIn(added, t) && RowsIn(db, t) !! RowsIn(added, t);
    RowsInJob(job, t, scale);
    LinesAreDistinct(job, t, CountOf(job, t), scale);
  }

  // ----------------------------------------------------------- one day

  /** `next_sequence` as the query runs it: the highest run identifier in the writer's range. */
  method ReadNextSequence(db: set<Row>, writer: nat) returns (s: int)
    ensures s == NextSequence(db, writer)
  {
    var low := Id(IngestRunT, writer, 0);
    var rest := RunsOf(db, writer);
    if rest == {} {
      return 0;
    }
    var highest := low;
    var seen: set<Row> := {};
    while rest != {}
      invariant seen + rest == RunsOf(db, writer)
      invariant forall r :: r in seen ==> r.id <= highest
      invariant if seen == {} then highest == low else exists r :: r in seen && r.id == highest
      decreases |rest|
    {
      var r: Row :| r in rest;
      if r.id > highest {
        highest := r.id;
      }
      seen, rest := seen + {r}, rest - {r};
      assert r in seen;
    }
    return highest - low;
  }

  function DailyOrder(sequence: nat, scale: Scale, observed: nat): Order {
    Order(DAILY_WRITER, sequence, RECORDS_PER_RUN, Cards(scale), observed)
  }

  /** The log with `n` more daily batches, from the sequence number after `first`. */
  function DailyLog(log: map<Tag, Job>, first: nat, n: nat, scale: Scale, observed: nat): map<Tag, Job> {
    if n == 0 then log
    else DailyLog(log, first, n - 1, scale, observed)
           [Tag(DAILY_WRITER, first + n) := Ingest(DailyOrder(first + n, scale, observed))]
  }

  /** A batch under a new tag extends a quiet ledger to a quiet ledger. */
  lemma QuietGrows(db: set<Row>, log: map<Tag, Job>, job: Job, scale: Scale)
    requires Quiet(db, log, scale) && Valid(job, scale) && TagOf(job) !in log
    ensures Quiet(db + RowsOf(job, Size(job), scale), log[TagOf(job) := job], scale)
  {
    hide Seed, LogRows, RowsOf, Size, Valid;
    LogGrows(log, TagOf(job), job, scale);
  }

  function Total(counts: map<Table, nat>): nat
    requires counts.Keys >= {IngestRunT, RawArtifactT, ProcessingRunT, ExtractedRecordT, CandidateT, AttemptT,
                             ObservationT, ReviewT}
  {
    counts[IngestRunT] + counts[RawArtifactT] + counts[ProcessingRunT] + counts[ExtractedRecordT]
      + counts[CandidateT] + counts[AttemptT] + counts[ObservationT] + counts[ReviewT]
  }

  lemma OfferedTotal(o: Order)
    ensures Total(Offered(BatchOf(o))) == BatchSize(o.rows)
  {
  }

  /** The rows one artifact a day adds to a table: 309 in all. */
  function DailyAdds(t: Table): nat {
    match t
    case IngestRunT => 1
    case RawArtifactT => 1
    case ProcessingRunT => 1
    case ExtractedRecordT => 60
    case CandidateT => 60
    case AttemptT => 120
    case ObservationT => 60
    case ReviewT => 6
    case _ => 0
  }

  /**
   * A row of the day: an observation was made at the time given, of the card that the identifier of
   * its record hashes to among all the cards there are; a run has a number past the last one before.
   */
  predicate OfTheDay(r: Row, first: int, n: nat, scale: Scale, observed: nat) {
    && (r.Observation? ==>
          && r.observedAt == observed && r.id >= IdBase(ObservationT)
          && r.cardId == H(r.id - IdBase(ObservationT) + IdBase(ExtractedRecordT)) % Cards(scale))
    && (r.IngestRun? ==> Id(IngestRunT, DAILY_WRITER, 0) + first < r.id <= Id(IngestRunT, DAILY_WRITER, 0) + first + n)
  }

  /** Every table has grown by its share of `n` artifacts, by rows of the day. */
  ghost predicate Ingested(before: set<Row>, after: set<Row>, first: int, n: nat, scale: Scale, observed: nat) {
    && before <= after && (forall t :: |RowsIn(after, t)| == |RowsIn(before, t)| + n * DailyAdds(t))
    && forall r :: r in after - before ==> OfTheDay(r, first, n, scale, observed)
  }

  lemma BatchOfTheDay(first: nat, n: nat, r: Row, scale: Scale, observed: nat)
    requires var job := Ingest(DailyOrder(first + n + 1, scale, observed)); r in RowsOf(job, Size(job), scale)
    ensures OfTheDay(r, first, n + 1, scale, observed)
  {
    var o := DailyOrder(first + n + 1, scale, observed);
    var job := Ingest(o);
    hide PlaceAt, Size, RowIn, OfTheDay;
    var j: nat :| j < Size(job) && Kept(job, PlaceAt(job, j)) && r == RowIn(job, PlaceAt(job, j), scale);
    RowTable(job, PlaceAt(job, j), scale);
    RowOfTheDay(first, n, PlaceAt(job, j), scale, observed);
  }

  lemma RowOfTheDay(first: nat, n: nat, p: Place, scale: Scale, observed: nat)
    requires InJob(Ingest(DailyOrder(first + n + 1, scale, observed)), p)
    ensures OfTheDay(RowIn(Ingest(DailyOrder(first + n + 1, scale, observed)), p, scale), first, n + 1, scale, observed)
  {
    hide H, PriceFor, ContentHash, ObservationKey, Condition, PriceType;
  }

  lemma IngestedOneMore(engine: Engine, before: set<Row>, db: set<Row>, log: map<Tag, Job>, first: nat, n: nat,
                        scale: Scale, observed: nat)
    requires Discerning(engine) && Ingested(before, db, first, n, scale, observed) && Quiet(db, log, scale)
    requires first + n + 1 < SEQUENCE_LIMIT && Tag(DAILY_WRITER, first + n + 1) !in log
    ensures var job := Ingest(DailyOrder(first + n + 1, scale, observed));
            Ingested(before, db + RowsOf(job, Size(job), scale), first, n + 1, scale, observed)
  {
    hide Quiet, RowsOf, RowsIn, Valid, Size, OfTheDay, DailyAdds, CountOf;
    var job := Ingest(DailyOrder(first + n + 1, scale, observed));
    var after := db + RowsOf(job, Size(job), scale);
    DailyIsValid(first + n + 1, scale, observed);
    forall t
      ensures |RowsIn(after, t)| == |RowsIn(before, t)| + (n + 1) * DailyAdds(t)
    {
      TableGrows(engine, db, log, job, t, scale);
      DailyCount(job.order, t);
      assert n * DailyAdds(t) + DailyAdds(t) == (n + 1) * DailyAdds(t);
    }
    forall r | r in after - before
      ensures OfTheDay(r, first, n + 1, scale, observed)
    {
      if r in db {
        OfTheDayStill(r, first, n, scale, observed);
      } else {
        BatchOfTheDay(first, n, r, scale, observed);
      }
    }
  }

  lemma DailyCount(o: Order, t: Table)
    requires o.rows == RECORDS_PER_RUN
    ensures CountOf(Ingest(o), t) == DailyAdds(t)
  {
  }

  lemma OfTheDayStill(r: Row, first: int, n: nat, scale: Scale, observed: nat)
    requires OfTheDay(r, first, n, scale, observed)
    ensures OfTheDay(r, first, n + 1, scale, observed)
  {
    hide H;
  }

  lemma NothingIngested(db: set<Row>, first: int, scale: Scale, observed: nat)
    ensures Ingested(db, db, first, 0, scale, observed)
  {
  }

  /**
   * `daily_ingest`: one batch per artifact, each in its own transaction, from the sequence number
   * the writer reached. On any ledger its writers can have left, every batch goes in whole, and the
   * ledger ends with exactly these batches more: 309 rows for each artifact, under the next numbers
   * of the writer, observed when the caller says and spread over all cards.
   */
  method DailyIngest(conn: Connection, artifacts: nat, scale: Scale, observed: nat, ghost log: map<Tag, Job>)
    returns (rowsWritten: nat)
    requires Discerning(conn.engine)
    requires conn.view == conn.committed && conn.savepoints == [] && Quiet(conn.committed, log, scale)
    requires NextSequence(conn.committed, DAILY_WRITER) + artifacts < SEQUENCE_LIMIT
    modifies conn
    ensures conn.view == conn.committed && conn.savepoints == []
    ensures var first := old(NextSequence(conn.committed, DAILY_WRITER));
            Quiet(conn.committed, DailyLog(log, first, artifacts, scale, observed), scale)
    ensures rowsWritten == 309 * artifacts
    ensures Ingested(old(conn.committed), conn.committed, old(NextSequence(conn.committed, DAILY_WRITER)), artifacts,
                     scale, observed)
  {
    hide Quiet, NextSequence, Ingested, Valid, RowsOf, Offered, WriteForm, BatchOf, Size, Discerning, Admissible;
    var first := ReadNextSequence(conn.committed, DAILY_WRITER);
    ghost var all := log;
    forall t | t in log && t.writer == DAILY_WRITER
      ensures t.sequence <= first
    {
      LoggedRun(conn.committed, log, t, scale);
    }
    rowsWritten := 0;
    NothingIngested(conn.committed, first, scale, observed);
    for index := 0 to artifacts
      invariant Ingested(old(conn.committed), conn.committed, first, index, scale, observed)
      invariant conn.view == conn.committed && conn.savepoints == []
      invariant all == DailyLog(log, first, index, scale, observed) && Quiet(conn.committed, all, scale)
      invariant forall t :: t in all && t.writer == DAILY_WRITER ==> t.sequence <= first + index
      invariant rowsWritten == 309 * index
    {
      var order := DailyOrder(first + index + 1, scale, observed);
      DailyIsValid(order.sequence, scale, observed);
      var batch := BuildBatch(order);
      ghost var before := conn.committed;
      var w, kept := conn.WriteAndCommit(batch, true);
      Lengths(order);
      KeptWithin(conn.engine, before, batch, kept);
      BatchGoesThrough(before, all, order, conn.engine, true, kept, scale);
      QuietGrows(before, all, Ingest(order), scale);
      IngestedOneMore(conn.engine, old(conn.committed), before, all, first, index, scale, observed);
      OfferedTotal(order);
      OfferedKeys(batch);
      rowsWritten := rowsWritten + Total(w.counts);
      all := all[TagOf(Ingest(order)) := Ingest(order)];
    }
  }

  lemma KeptWithin(engine: Engine, db: set<Row>, b: Batch, kept: nat)
    requires Admissible(engine, db, b, kept)
    ensures kept <= |b.observations|
  {
  }

  lemma OfferedKeys(b: Batch)
    ensures Offered(b).Keys >= {IngestRunT, RawArtifactT, ProcessingRunT, ExtractedRecordT, CandidateT, AttemptT,
                                ObservationT, ReviewT}
  {
  }

  lemma DailyIsValid(sequence: nat, scale: Scale, observed: nat)
    requires 1 <= sequence < SEQUENCE_LIMIT
    ensures Valid(Ingest(DailyOrder(sequence, scale, observed)), scale)
  {
  }

  // --------------------------------------------------------- reparsing

  /** The tables `reparse` fills before the observations. */
  function ReparseParts(b: Batch): seq<(Table, seq<Row>)> {
    [(ProcessingRunT, b.processingRun), (ExtractedRecordT, b.records), (CandidateT, b.candidates),
     (AttemptT, b.attempts)]
  }

  lemma FlatParts(b: Batch)
    ensures Flat(ReparseParts(b)) == b.processingRun + b.records + b.candidates + b.attempts
  {
    var p := ReparseParts(b);
    assert p[..3][..2] == p[..2] && p[..2][..1] == p[..1] && p[..1][..0] == [];
    assert Flat(p[..1]) == b.processingRun;
    assert Flat(p[..3]) == Flat(p[..1]) + b.records + b.candidates;
  }

  lemma ReparseLists(artifact: nat, scale: Scale)
    ensures var b, job := ReparseBatchOf(artifact, scale), Reparse(artifact);
            && ListOf(job, ProcessingRunT, b.processingRun, scale) && ListOf(job, ExtractedRecordT, b.records, scale)
            && ListOf(job, CandidateT, b.candidates, scale) && ListOf(job, AttemptT, b.attempts, scale)
            && ListOf(job, ObservationT, b.observations, scale)
    ensures var job := Reparse(artifact);
            && StartsAt(job, ProcessingRunT, 0) && StartsAt(job, ExtractedRecordT, 1) && StartsAt(job, CandidateT, 61)
            && StartsAt(job, AttemptT, 121) && StartsAt(job, ObservationT, 181)
  {
    hide ReparseProcessing, ReparseRecord, ReparseCandidate, ReparseAttempt, ReparseObservation;
  }

  lemma ReparseInOrder(artifact: nat, scale: Scale)
    ensures var b, all := ReparseBatchOf(artifact, scale), InOrder(Reparse(artifact), scale);
            |all| == 241 && Flat(ReparseParts(b)) == all[..181] && b.observations == all[181..]
  {
    hide ReparseParts, Flat, InOrder, RowIn, ReparseBatchOf, ListOf, StartsAt;
    var b, all, job := ReparseBatchOf(artifact, scale), InOrder(Reparse(artifact), scale), Reparse(artifact);
    FlatParts(b);
    OrderLength(job, scale);
    ReparseLists(artifact, scale);
    TableLines(job, ProcessingRunT, 0, b.processingRun, scale);
    TableLines(job, ExtractedRecordT, 1, b.records, scale);
    TableLines(job, CandidateT, 61, b.candidates, scale);
    TableLines(job, AttemptT, 121, b.attempts, scale);
    TableLines(job, ObservationT, 181, b.observations, scale);
    FourPieces(all);
  }

  lemma FourPieces(all: seq<Row>)
    requires |all| >= 181
    ensures all[0..1] + all[1..61] + all[61..121] + all[121..181] == all[..181]
  {
    assert all[0..1] + all[1..61] == all[..61];
    assert all[..61] + all[61..121] == all[..121];
  }

  /** A reparsed artifact stores what its first 181 statements store. */
  lemma KeptRows(artifact: nat, scale: Scale)
    ensures RowsOf(Reparse(artifact), 181, scale) == RowsOf(Reparse(artifact), 241, scale)
    ensures forall j: nat :: j < 181 ==> Kept(Reparse(artifact), PlaceAt(Reparse(artifact), j))
  {
    hide RowIn;
  }

  lemma ObservationsHeld(engine: Engine, db: set<Row>, artifact: nat, scale: Scale)
    requires Seed(scale) <= db && artifact < 14_000 * scale
    ensures var rows := ReparseBatchOf(artifact, scale).observations;
            Observations(rows) &&
            forall j :: 0 <= j < |rows| ==> Checks(engine, rows[j]) && KeyHeld(engine, db, rows[j].key)
  {
    hide ReparseProcessing, ReparseRecord, ReparseCandidate, ReparseAttempt, ReparseObservation, Checks, Seed;
    var rows := ReparseBatchOf(artifact, scale).observations;
    forall j | 0 <= j < |rows|
      ensures rows[j].Observation? && Checks(engine, rows[j]) && KeyHeld(engine, db, rows[j].key)
    {
      ReparseRepeats(artifact, j, scale);
      RowChecks(engine, Reparse(artifact), Place(ObservationT, j), scale);
      ReparseKeyHeld(engine, artifact, j, scale);
      KeyHeldMonotone(engine, Seed(scale), db, rows[j].key);
    }
  }

  /** On a quiet ledger an artifact not reparsed yet adds its 181 rows and no observation. */
  lemma ReparseGoesThrough(engine: Engine, db: set<Row>, log: map<Tag, Job>, artifact: nat, scale: Scale)
    requires Discerning(engine)
    requires Quiet(db, log, scale) && artifact < 14_000 * scale && TagOf(Reparse(artifact)) !in log
    ensures Executed(engine, db, 0, Flat(ReparseParts(ReparseBatchOf(artifact, scale))), false)
            == Done(db + RowsOf(Reparse(artifact), 241, scale), 181)
    ensures var rows := ReparseBatchOf(artifact, scale).observations;
            && Observations(rows)
            && forall kept: nat :: kept <= |rows| ==>
                 LeftBehind(engine, db + RowsOf(Reparse(artifact), 241, scale), rows, kept)
                 && (engine.Postgres? ==> kept == 0) ==>
                 ObservationForm(engine, db + RowsOf(Reparse(artifact), 241, scale), rows, true, kept)
                 == Done(db + RowsOf(Reparse(artifact), 241, scale), 0)
  {
    hide ReparseParts, Flat, InOrder, Executed, RowsOf, Seed, ReparseBatchOf, PlaceAt, Kept, LeftBehind,
      ObservationForm, Observations, LogRows, Checks, KeyHeld;
    var job := Reparse(artifact);
    ReparseInOrder(artifact, scale);
    KeptRows(artifact, scale);
    LinesGoIn(engine, db, log, job, 181, false, scale);
    var after, rows := db + RowsOf(job, 241, scale), ReparseBatchOf(artifact, scale).observations;
    ObservationsHeld(engine, after, artifact, scale);
    forall kept: nat | kept <= |rows| && LeftBehind(engine, after, rows, kept) && (engine.Postgres? ==> kept == 0)
      ensures ObservationForm(engine, after, rows, true, kept) == Done(after, 0)
    {
      NothingNew(engine, after, rows, kept);
    }
  }

  /** The log with artifacts `0` to `n - 1` reparsed. */
  function ReparseLog(log: map<Tag, Job>, n: nat): map<Tag, Job> {
    if n == 0 then log else ReparseLog(log, n - 1)[TagOf(Reparse(n - 1)) := Reparse(n - 1)]
  }

  /** The rows reparsing one artifact adds to a table: 1 + 3 * 60 in all, no observation. */
  function ReparseAdds(t: Table): nat {
    if t == ObservationT then 0 else ReparseCount(t)
  }

  lemma ReparseTableCount(engine: Engine, db: set<Row>, log: map<Tag, Job>, artifact: nat, t: Table, scale: Scale)
    requires Discerning(engine)
    requires Quiet(db, log, scale) && artifact < 14_000 * scale && TagOf(Reparse(artifact)) !in log
    ensures |RowsIn(db + RowsOf(Reparse(artifact), 241, scale), t)| == |RowsIn(db, t)| + ReparseAdds(t)
    ensures t == ObservationT ==>
              RowsIn(db + RowsOf(Reparse(artifact), 241, scale), t) == RowsIn(db, t)
  {
    hide RowIn, RowsOf, Seed, Quiet, LogRows, PlaceAt;
    if t == ObservationT {
      NoObservations(artifact, scale);
      var added := RowsOf(Reparse(artifact), 241, scale);
      assert RowsIn(db + added, t) == RowsIn(db, t) + RowsIn(added, t);
    } else {
      TableGrows(engine, db, log, Reparse(artifact), t, scale);
    }
  }

  lemma NoObservations(artifact: nat, scale: Scale)
    ensures RowsIn(RowsOf(Reparse(artifact), 241, scale), ObservationT) == {}
  {
    hide RowIn;
    forall r | r in RowsOf(Reparse(artifact), 241, scale)
      ensures TableOf(r) != ObservationT
    {
      var j: nat :| j < 241 && Kept(Reparse(artifact), PlaceAt(Reparse(artifact), j))
        && r == RowIn(Reparse(artifact), PlaceAt(Reparse(artifact), j), scale);
      RowTable(Reparse(artifact), PlaceAt(Reparse(artifact), j), scale);
    }
  }

  /** Every table has grown by its share of `n` reparsed artifacts, and the observations not at all. */
  ghost predicate Grown(before: set<Row>, after: set<Row>, n: nat) {
    RowsIn(after, ObservationT) == RowsIn(before, ObservationT)
    && forall t :: |RowsIn(after, t)| == |RowsIn(before, t)| + n * ReparseAdds(t)
  }

  lemma GrownByOne(engine: Engine, before: set<Row>, db: set<Row>, log: map<Tag, Job>, n: nat, artifact: nat,
                   scale: Scale)
    requires Discerning(engine)
    requires Grown(before, db, n) && Quiet(db, log, scale)
    requires artifact < 14_000 * scale && TagOf(Reparse(artifact)) !in log
    ensures Grown(before, db + RowsOf(Reparse(artifact), 241, scale), n + 1)
  {
    hide Quiet, RowsOf, RowsIn, ReparseAdds;
    forall t {
      ReparseTableCount(engine, db, log, artifact, t, scale);
    }
  }

  /** One turn of `reparse`: one artifact, one transaction. */
  method ReparseOne(conn: Connection, index: nat, scale: Scale, ghost log: map<Tag, Job>) returns (inserted: int)
    requires Discerning(conn.engine)
    requires conn.view == conn.committed && conn.savepoints == [] && Quiet(conn.committed, log, scale)
    requires index < 14_000 * scale && TagOf(Reparse(index)) !in log
    modifies conn
    ensures conn.view == conn.committed == old(conn.committed) + RowsOf(Reparse(index), 241, scale)
    ensures conn.savepoints == [] && inserted == 0
  {
    hide Quiet, Executed, LeftBehind, ObservationForm, Flat, ReparseParts, ReparseBatchOf, RowsOf, Observations;
    var batch := BuildReparse(index, scale);
    ReparseGoesThrough(conn.engine, conn.committed, log, index, scale);
    var w := conn.InsertTables(ReparseParts(batch));
    var r, kept := conn.InsertObservations(batch.observations, true);
    conn.Commit();
    return r.n;
  }

  /**
   * `reparse` on the reparse writer's first run: artifact after artifact in its own transaction.
   * The observations stay exactly as they were and none is counted as inserted, every other table
   * grows by its share of the 1 + 3 * 60 rows of each artifact, and the ledger ends with exactly
   * the reparsed batches more.
   */
  method ReparseAll(conn: Connection, target: nat, scale: Scale, ghost log: map<Tag, Job>)
    returns (inserted: int, before: nat, after: nat)
    requires Discerning(conn.engine)
    requires conn.view == conn.committed && conn.savepoints == [] && Quiet(conn.committed, log, scale)
    requires target <= 14_000 * scale && forall t :: t in log ==> t.writer != REPARSE_WRITER
    modifies conn
    ensures conn.view == conn.committed && conn.savepoints == []
    ensures Quiet(conn.committed, ReparseLog(log, target), scale)
    ensures inserted == 0 && before == after
    ensures Grown(old(conn.committed), conn.committed, target)
  {
    hide Quiet, NextSequence, RowsOf, RowsIn;
    var start := ReadNextSequence(conn.committed, REPARSE_WRITER);
    LastIsLogged(conn.committed, log, REPARSE_WRITER, scale);
    before := |RowsIn(conn.committed, ObservationT)|;
    inserted := 0;
    ghost var all := log;
    for index := 0 to target
      invariant conn.view == conn.committed && conn.savepoints == []
      invariant all == ReparseLog(log, index) && Quiet(conn.committed, all, scale)
      invariant forall t :: t in all && t.writer == REPARSE_WRITER ==> t.sequence <= index
      invariant inserted == 0 && Grown(old(conn.committed), conn.committed, index)
    {
      assert start + index + 1 == TagOf(Reparse(index)).sequence;
      QuietGrows(conn.committed, all, Reparse(index), scale);
      GrownByOne(conn.engine, old(conn.committed), conn.committed, all, index, index, scale);
      var n := ReparseOne(conn, index, scale, all);
      inserted := inserted + n;
      all := all[TagOf(Reparse(index)) := Reparse(index)];
    }
    after := |RowsIn(conn.committed, ObservationT)|;
  }
}

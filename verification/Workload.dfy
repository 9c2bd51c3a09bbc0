/**
 * One artifact's worth of ingestion rows and the identifiers they get (workload.py, `_id`,
 * `next_sequence`, `build_batch`), and the rows a reparse writes (`_reparse_batch` in ingest.py).
 */
module Workload {
  import opened Text
  import opened Hash
  import opened Schema
  import opened Generate

  const WRITER_STRIDE := 10_000_000_000
  const REPARSE_WRITER := 41

  function IdBase(t: Table): nat {
    match t
    case IngestRunT => 1_000_000_000_000
    case RawArtifactT => 2_000_000_000_000
    case ProcessingRunT => 3_000_000_000_000
    case ExtractedRecordT => 4_000_000_000_000
    case CandidateT => 5_000_000_000_000
    case AttemptT => 6_000_000_000_000
    case ObservationT => 7_000_000_000_000
    case ReviewT => 8_000_000_000_000
    case _ => 0
  }

  function Id(t: Table, writer: nat, counter: nat): nat {
    IdBase(t) + writer * WRITER_STRIDE + counter
  }

  type Positive = n: nat | n > 0 witness 1

  /** The arguments of `build_batch`; `observed` is in seconds. */
  datatype Order = Order(writer: nat, sequence: nat, rows: nat, cards: Positive, observed: nat)
  {
    function Source(): (source: nat)
      ensures 1 <= source <= 4
    {
      (writer + sequence) % 4 + 1
    }

    function RunId(): nat { Id(IngestRunT, writer, sequence) }

    function ArtifactId(): nat { Id(RawArtifactT, writer, sequence) }

    function ProcessingId(): nat { Id(ProcessingRunT, writer, sequence) }

    function Counter(i: nat): nat { sequence * RECORDS_PER_RUN + i }

    function RecordId(i: nat): nat { Id(ExtractedRecordT, writer, Counter(i)) }

    function CandidateId(i: nat): nat { Id(CandidateT, writer, Counter(i)) }

    function Card(i: nat): (card: nat)
      ensures card < cards
    {
      H(RecordId(i)) % cards
    }
  }

  function ContentHash(id: nat): string {
    Hex(8, H(id)) + Hex(8, H(id + 1)) + Hex(8, H(id + 2)) + Hex(8, H(id + 3))
      + Hex(8, H(id + 4)) + Hex(8, H(id + 5)) + Hex(8, H(id + 6)) + Hex(8, H(id + 7))
  }

  function RunRow(o: Order): Row {
    IngestRun(o.RunId(), o.Source(), "succeeded")
  }

  function ArtifactRow(o: Order): Row {
    RawArtifact(o.ArtifactId(), o.RunId(), o.Source(), ContentHash(o.ArtifactId()), 1024 + o.sequence % 4096)
  }

  function ProcessingRow(o: Order): Row {
    ProcessingRun(o.ProcessingId(), o.ArtifactId(), "price_table_parser", "1.0.0", "config/v1", 1)
  }

  function RecordRow(o: Order, i: nat): Row {
    ExtractedRecord(o.RecordId(i), o.ProcessingId(), o.ArtifactId())
  }

  function CandidateRow(o: Order, i: nat): Row {
    var record := o.RecordId(i);
    Candidate(o.CandidateId(i), record, o.Source(), o.Source(), PriceFor(record), Some(CURRENCY),
              PriceType(H(record + 3)), "v1")
  }

  /** Each record gets two attempts: `k` even confirms its card, `k` odd rejects another one. */
  function AttemptRow(o: Order, k: nat): Row {
    var i := k / 2;
    if k % 2 == 0
    then Attempt(Id(AttemptT, o.writer, o.Counter(i) * 2), o.CandidateId(i), Some(o.Card(i)),
                 Score(990, 0), "confirmed")
    else Attempt(Id(AttemptT, o.writer, o.Counter(i) * 2 + 1), o.CandidateId(i),
                 Some((o.Card(i) + 7) % o.cards), Score(550, 0), "rejected")
  }

  function ObservationKey(o: Order, i: nat): KeyFields {
    var record := o.RecordId(i);
    KeyFields(SOURCE_SLUGS[o.Source() - 1], o.ArtifactId(), i, PriceType(H(record + 3)),
              DayText(o.observed / 86_400), Condition(H(record + 5)))
  }

  function ObservationRow(o: Order, i: nat): Row {
    var record := o.RecordId(i);
    Observation(Id(ObservationT, o.writer, o.Counter(i)), o.CandidateId(i), o.Card(i), o.Source(), o.Source(),
                o.ArtifactId(), PriceFor(record), Some(CURRENCY), PriceType(H(record + 3)),
                Condition(H(record + 5)), o.observed, IdempotencyKey(ObservationKey(o, i)))
  }

  /** Every tenth record asks for a review. */
  function ReviewRow(o: Order, m: nat): Row {
    Review(Id(ReviewT, o.writer, o.Counter(10 * m)), o.RunId(), o.ArtifactId(), Some(o.RecordId(10 * m)), None,
           "parse_ambiguous", "pending", 10 * m % 5 + 1, 0)
  }

  function Reviews(rows: nat): nat {
    (rows + 9) / 10
  }

  /** The lists `build_batch` returns, one per table. */
  datatype Batch = Batch(ingestRun: seq<Row>, rawArtifact: seq<Row>, processingRun: seq<Row>,
                         records: seq<Row>, candidates: seq<Row>, attempts: seq<Row>,
                         observations: seq<Row>, reviews: seq<Row>)

  function BatchOf(o: Order): Batch {
    Batch([RunRow(o)], [ArtifactRow(o)], [ProcessingRow(o)],
          seq(o.rows, i requires 0 <= i < o.rows => RecordRow(o, i)),
          seq(o.rows, i requires 0 <= i < o.rows => CandidateRow(o, i)),
          seq(2 * o.rows, k requires 0 <= k < 2 * o.rows => AttemptRow(o, k)),
          seq(o.rows, i requires 0 <= i < o.rows => ObservationRow(o, i)),
          seq(Reviews(o.rows), m requires 0 <= m < Reviews(o.rows) => ReviewRow(o, m)))
  }

  /** `build_batch`: one pass over the rows, appending to five lists. */
  method BuildBatch(o: Order) returns (b: Batch)
    ensures b == BatchOf(o)
  {
    hide RunRow, ArtifactRow, ProcessingRow, RecordRow, CandidateRow, AttemptRow, ObservationRow, ReviewRow;
    var records, candidates, attempts, observations, reviews: seq<Row> := [], [], [], [], [];
    for i := 0 to o.rows
      invariant records == seq(i, j requires 0 <= j < i => RecordRow(o, j))
      invariant candidates == seq(i, j requires 0 <= j < i => CandidateRow(o, j))
      invariant attempts == seq(2 * i, k requires 0 <= k < 2 * i => AttemptRow(o, k))
      invariant observations == seq(i, j requires 0 <= j < i => ObservationRow(o, j))
      invariant reviews == seq(Reviews(i), m requires 0 <= m < Reviews(i) => ReviewRow(o, m))
    {
      records := records + [RecordRow(o, i)];
      candidates := candidates + [CandidateRow(o, i)];
      attempts := attempts + [AttemptRow(o, 2 * i), AttemptRow(o, 2 * i + 1)];
      observations := observations + [ObservationRow(o, i)];
      if i % 10 == 0 {
        reviews := reviews + [ReviewRow(o, i / 10)];
      }
    }
    b := Batch([RunRow(o)], [ArtifactRow(o)], [ProcessingRow(o)], records, candidates, attempts,
               observations, reviews);
  }

  // ------------------------------------------------------ next_sequence

  /** The runs in a writer's identifier range. */
  function RunsOf(db: set<Row>, writer: nat): set<Row> {
    var low := Id(IngestRunT, writer, 0);
    set r | r in db && r.IngestRun? && low <= r.id < low + WRITER_STRIDE
  }

  ghost predicate IsLast(runs: set<Row>, r: Row) {
    r in runs && forall q :: q in runs ==> q.id <= r.id
  }

  lemma LastExists(runs: set<Row>)
    requires runs != {}
    ensures exists r :: IsLast(runs, r)
  {
    var r :| r in runs;
    var rest := runs - {r};
    assert forall q :: q in runs ==> q == r || q in rest;
    if rest == {} {
      assert IsLast(runs, r);
    } else {
      LastExists(rest);
      var last :| IsLast(rest, last);
      assert IsLast(runs, if r.id > last.id then r else last);
    }
  }

  /** `next_sequence`: the highest sequence number a stored run of this writer used, or 0. */
  ghost function NextSequence(db: set<Row>, writer: nat): (s: int)
    ensures s >= 0
    ensures forall r :: r in RunsOf(db, writer) ==> r.id <= Id(IngestRunT, writer, s)
    ensures if RunsOf(db, writer) == {} then s == 0
            else exists r :: r in RunsOf(db, writer) && r.id == Id(IngestRunT, writer, s)
  {
    var runs := RunsOf(db, writer);
    if runs == {} then 0 else
      LastExists(runs);
      var last :| IsLast(runs, last);
      last.id - Id(IngestRunT, writer, 0)
  }

  // -------------------------------------------------- statements in order

  /** A line of one of the lists: which table, and where in it. */
  datatype Place = Place(table: Table, index: nat)

  function BatchCount(n: nat, t: Table): nat {
    match t
    case IngestRunT => 1
    case RawArtifactT => 1
    case ProcessingRunT => 1
    case ExtractedRecordT => n
    case CandidateT => n
    case AttemptT => 2 * n
    case ObservationT => n
    case ReviewT => Reviews(n)
    case _ => 0
  }

  /** The number of rows `write_batch` inserts for `n` records. */
  function BatchSize(n: nat): nat {
    3 + 5 * n + Reviews(n)
  }

  /** The order `write_batch` inserts in: table after table, every table after the ones it refers to. */
  function BatchPlace(n: nat, j: nat): (p: Place)
    requires j < BatchSize(n)
    ensures p.index < BatchCount(n, p.table)
  {
    if j == 0 then Place(IngestRunT, 0)
    else if j == 1 then Place(RawArtifactT, 0)
    else if j == 2 then Place(ProcessingRunT, 0)
    else if j < 3 + n then Place(ExtractedRecordT, j - 3)
    else if j < 3 + 2 * n then Place(CandidateT, j - 3 - n)
    else if j < 3 + 4 * n then Place(AttemptT, j - 3 - 2 * n)
    else if j < 3 + 5 * n then Place(ObservationT, j - 3 - 4 * n)
    else Place(ReviewT, j - 3 - 5 * n)
  }

  function BatchRow(o: Order, p: Place): Row
    requires p.index < BatchCount(o.rows, p.table)
  {
    match p.table
    case IngestRunT => RunRow(o)
    case RawArtifactT => ArtifactRow(o)
    case ProcessingRunT => ProcessingRow(o)
    case ExtractedRecordT => RecordRow(o, p.index)
    case CandidateT => CandidateRow(o, p.index)
    case AttemptT => AttemptRow(o, p.index)
    case ObservationT => ObservationRow(o, p.index)
    case ReviewT => ReviewRow(o, p.index)
  }

  // ------------------------------------------------------------- reparse

  /** The identifiers of a reparse are those of writer 41 at a sequence number one past the artifact's index. */
  function ReparseOrder(artifact: nat): Order {
    Order(REPARSE_WRITER, artifact + 1, RECORDS_PER_RUN, 1, 0)
  }

  function ReparseProcessing(artifact: nat): Row {
    ProcessingRun(ReparseOrder(artifact).ProcessingId(), artifact + 1, "price_table_parser", "1.1.0", "config/v2", 2)
  }

  function ReparseRecord(artifact: nat, i: nat): Row {
    var o := ReparseOrder(artifact);
    ExtractedRecord(o.RecordId(i), o.ProcessingId(), artifact + 1)
  }

  function ReparseCandidate(artifact: nat, i: nat, scale: Scale): Row {
    var o, f := ReparseOrder(artifact), ObservationFields(artifact * RECORDS_PER_RUN + i, scale);
    Candidate(o.CandidateId(i), o.RecordId(i), f.sourceId, f.sourceId, f.amount, Some(CURRENCY), f.priceType, "v2")
  }

  function ReparseAttempt(artifact: nat, i: nat, scale: Scale): Row {
    var o, f := ReparseOrder(artifact), ObservationFields(artifact * RECORDS_PER_RUN + i, scale);
    Attempt(Id(AttemptT, o.writer, o.Counter(i) * 2), o.CandidateId(i), Some(f.card), Score(990, 0), "confirmed")
  }

  function ReparseObservation(artifact: nat, i: nat, scale: Scale): Row {
    var o, f := ReparseOrder(artifact), ObservationFields(artifact * RECORDS_PER_RUN + i, scale);
    Observation(Id(ObservationT, o.writer, o.Counter(i)), o.CandidateId(i), f.card, f.sourceId, f.sourceId,
                artifact + 1, f.amount, Some(CURRENCY), f.priceType, f.condition, f.observed,
                IdempotencyKey(f.KeyFields()))
  }

  function ReparseCount(t: Table): nat {
    match t
    case ProcessingRunT => 1
    case ExtractedRecordT => 60
    case CandidateT => 60
    case AttemptT => 60
    case ObservationT => 60
    case _ => 0
  }

  const REPARSE_SIZE := 241

  function ReparsePlace(j: nat): (p: Place)
    requires j < REPARSE_SIZE
    ensures p.index < ReparseCount(p.table)
  {
    if j == 0 then Place(ProcessingRunT, 0)
    else if j < 61 then Place(ExtractedRecordT, j - 1)
    else if j < 121 then Place(CandidateT, j - 61)
    else if j < 181 then Place(AttemptT, j - 121)
    else Place(ObservationT, j - 181)
  }

  function ReparseRow(artifact: nat, p: Place, scale: Scale): Row
    requires p.index < ReparseCount(p.table)
  {
    match p.table
    case ProcessingRunT => ReparseProcessing(artifact)
    case ExtractedRecordT => ReparseRecord(artifact, p.index)
    case CandidateT => ReparseCandidate(artifact, p.index, scale)
    case AttemptT => ReparseAttempt(artifact, p.index, scale)
    case ObservationT => ReparseObservation(artifact, p.index, scale)
  }

  /** The lists `_reparse_batch` returns for one stored artifact. */
  function ReparseBatchOf(artifact: nat, scale: Scale): Batch {
    Batch([], [], [ReparseProcessing(artifact)],
          seq(RECORDS_PER_RUN, i requires 0 <= i < RECORDS_PER_RUN => ReparseRecord(artifact, i)),
          seq(RECORDS_PER_RUN, i requires 0 <= i < RECORDS_PER_RUN => ReparseCandidate(artifact, i, scale)),
          seq(RECORDS_PER_RUN, i requires 0 <= i < RECORDS_PER_RUN => ReparseAttempt(artifact, i, scale)),
          seq(RECORDS_PER_RUN, i requires 0 <= i < RECORDS_PER_RUN => ReparseObservation(artifact, i, scale)),
          [])
  }

  /** `_reparse_batch`: one pass over the artifact's rows, appending to four lists. */
  method BuildReparse(artifact: nat, scale: Scale) returns (b: Batch)
    ensures b == ReparseBatchOf(artifact, scale)
  {
    hide ReparseProcessing, ReparseRecord, ReparseCandidate, ReparseAttempt, ReparseObservation;
    var records, candidates, attempts, observations: seq<Row> := [], [], [], [];
    for row := 0 to RECORDS_PER_RUN
      invariant records == seq(row, i requires 0 <= i < row => ReparseRecord(artifact, i))
      invariant candidates == seq(row, i requires 0 <= i < row => ReparseCandidate(artifact, i, scale))
      invariant attempts == seq(row, i requires 0 <= i < row => ReparseAttempt(artifact, i, scale))
      invariant observations == seq(row, i requires 0 <= i < row => ReparseObservation(artifact, i, scale))
    {
      records := records + [ReparseRecord(artifact, row)];
      candidates := candidates + [ReparseCandidate(artifact, row, scale)];
      attempts := attempts + [ReparseAttempt(artifact, row, scale)];
      observations := observations + [ReparseObservation(artifact, row, scale)];
    }
    b := Batch([], [], [ReparseProcessing(artifact)], records, candidates, attempts, observations, []);
  }
}

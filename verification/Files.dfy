/**
 * The loops of generate.py that write the seed, one file a table: lines are collected into a chunk,
 * and the file gets them when the chunk is full and at the end.
 */
module Files {
  import opened Hash
  import opened Schema
  import opened Generate
  import opened Seeded

  /** The first `n` lines a table's file should hold. */
  function Lines(t: Table, scale: Scale, n: nat): seq<Row>
    requires n <= Count(t, scale)
  {
    seq(n, j requires 0 <= j < n => RowAt(t, j, scale))
  }

  lemma OneLine(t: Table, scale: Scale, n: nat, row: Row)
    requires n < Count(t, scale) && row == RowAt(t, n, scale)
    ensures Lines(t, scale, n + 1) == Lines(t, scale, n) + [row]
  {
    hide RowAt;
  }

  /** A file being written: what it holds, and the chunk beside it with the number of its entries. */
  class Output {
    var written: seq<Row>
    var chunk: seq<Row>
    var entries: nat

    constructor ()
      ensures written == [] && chunk == [] && entries == 0
    {
      written, chunk, entries := [], [], 0;
    }

    /** Everything handed over so far, in order. */
    ghost function Text(): seq<Row>
      reads this
    {
      written + chunk
    }

    /** One entry, which may be several lines. */
    method Add(rows: seq<Row>)
      modifies this
      ensures Text() == old(Text()) + rows && written == old(written)
    {
      chunk, entries := chunk + rows, entries + 1;
    }

    method Flush()
      modifies this
      ensures Text() == written == old(Text()) && entries == 0
    {
      written, chunk, entries := written + chunk, [], 0;
    }

    method FlushWhen(full: nat)
      modifies this
      ensures Text() == old(Text())
    {
      if entries >= full {
        Flush();
      }
    }
  }

  /**
   * `gen_card_identity`, `gen_extracted_record`, `gen_observation_candidate`, `gen_price_observation`
   * and `gen_review_item`: both parts in full chunks, the first one flushed before the second.
   */
  method GenChunked(t: Table, scale: Scale) returns (file: seq<Row>, rows: nat)
    requires t in {CardT, ExtractedRecordT, CandidateT, ObservationT, ReviewT}
    ensures file == Lines(t, scale, Count(t, scale)) && rows == |file|
  {
    hide Window, History, WindowRow, HistoryRow;
    var out := new Output();
    rows := 0;
    for i := 0 to Window(t, scale)
      invariant out.Text() == Lines(t, scale, i) && rows == i
    {
      out.Add([WindowRow(t, i, scale)]);
      rows := rows + 1;
      out.FlushWhen(50_000);
      OneLine(t, scale, i, WindowRow(t, i, scale));
    }
    out.Flush();
    for index := 0 to History(t)
      invariant out.Text() == Lines(t, scale, Window(t, scale) + index) && rows == Window(t, scale) + index
    {
      out.Add([HistoryRow(t, index, scale)]);
      rows := rows + 1;
      out.FlushWhen(50_000);
      OneLine(t, scale, Window(t, scale) + index, HistoryRow(t, index, scale));
    }
    out.Flush();
    file := out.written;
  }

  /** `gen_identity_resolution_attempt`: two lines an entry, chunks of 25,000 entries. */
  method GenAttempts(scale: Scale) returns (file: seq<Row>, rows: nat)
    ensures file == Lines(AttemptT, scale, Count(AttemptT, scale)) && rows == |file|
  {
    hide WindowRow, HistoryRow;
    var out := new Output();
    rows := 0;
    for i := 0 to 840_000 * scale
      invariant out.Text() == Lines(AttemptT, scale, 2 * i) && rows == 2 * i
    {
      var a, b := WindowRow(AttemptT, 2 * i, scale), WindowRow(AttemptT, 2 * i + 1, scale);
      out.Add([a, b]);
      rows := rows + 2;
      out.FlushWhen(25_000);
      OneLine(AttemptT, scale, 2 * i, a);
      OneLine(AttemptT, scale, 2 * i + 1, b);
    }
    out.Flush();
    for index := 0 to HISTORY_ROWS
      invariant out.Text() == Lines(AttemptT, scale, Window(AttemptT, scale) + 2 * index)
      invariant rows == Window(AttemptT, scale) + 2 * index
    {
      var a, b := HistoryAttempt(index, 0, scale), HistoryAttempt(index, 1, scale);
      out.Add([a, b]);
      rows := rows + 2;
      out.FlushWhen(25_000);
      AttemptsAt(index, scale);
      OneLine(AttemptT, scale, Window(AttemptT, scale) + 2 * index, a);
      OneLine(AttemptT, scale, Window(AttemptT, scale) + 2 * index + 1, b);
    }
    out.Flush();
    file := out.written;
  }

  lemma AttemptsAt(index: nat, scale: Scale)
    requires index < HISTORY_ROWS
    ensures HistoryRow(AttemptT, 2 * index, scale) == HistoryAttempt(index, 0, scale)
    ensures HistoryRow(AttemptT, 2 * index + 1, scale) == HistoryAttempt(index, 1, scale)
  {
    hide HistoryAttempt;
  }

  /** `gen_processing_run`: the history is added to the last chunk and never flushed on the way. */
  method GenProcessingRun(scale: Scale) returns (file: seq<Row>, rows: nat)
    ensures file == Lines(ProcessingRunT, scale, Count(ProcessingRunT, scale)) && rows == |file|
  {
    hide WindowRow, HistoryRow;
    var out := new Output();
    rows := 0;
    for i := 0 to 14_000 * scale
      invariant out.Text() == Lines(ProcessingRunT, scale, i) && rows == i
    {
      out.Add([WindowRow(ProcessingRunT, i, scale)]);
      rows := rows + 1;
      out.FlushWhen(50_000);
      OneLine(ProcessingRunT, scale, i, WindowRow(ProcessingRunT, i, scale));
    }
    for index := 0 to HISTORY_DAYS * HISTORY_SHOPS
      invariant out.Text() == Lines(ProcessingRunT, scale, 14_000 * scale + index) && rows == 14_000 * scale + index
    {
      out.Add([HistoryRow(ProcessingRunT, index, scale)]);
      rows := rows + 1;
      OneLine(ProcessingRunT, scale, 14_000 * scale + index, HistoryRow(ProcessingRunT, index, scale));
    }
    out.Flush();
    file := out.written;
  }

  /** The runs before this slot of this day. */
  function RunsBefore(day: nat, slot: nat, scale: Scale): nat {
    day * Slots(scale) + slot
  }

  lemma NextDay(day: nat, scale: Scale)
    requires day <= DAYS
    ensures RunsBefore(day, Slots(scale), scale) == RunsBefore(day + 1, 0, scale)
    ensures RunsBefore(0, 0, scale) == 0 && RunsBefore(DAYS, 0, scale) == Window(IngestRunT, scale)
    ensures RunsBefore(day, 0, scale) <= Window(IngestRunT, scale)
  {
    TimesGrows(Slots(scale));
  }

  /** `gen_ingest_run`: days and slots, then days and shops, in one chunk written at the end. */
  method GenIngestRun(scale: Scale) returns (file: seq<Row>, rows: nat)
    ensures file == Lines(IngestRunT, scale, Count(IngestRunT, scale)) && rows == |file|
  {
    hide RowAt, RunsBefore, Window;
    var out := new Output();
    rows := 0;
    NextDay(0, scale);
    for day := 0 to DAYS
      invariant rows == RunsBefore(day, 0, scale) <= Window(IngestRunT, scale)
      invariant out.Text() == Lines(IngestRunT, scale, rows)
    {
      for slot := 0 to Slots(scale)
        invariant rows == RunsBefore(day, slot, scale) <= Window(IngestRunT, scale)
        invariant out.Text() == Lines(IngestRunT, scale, rows)
      {
        var id := RunId(day, slot, scale);
        var row := IngestRun(id, slot % 4 + 1, if H(id) % 50 != 0 then "succeeded" else "partial");
        RunOfSlot(day, slot, scale);
        OneLine(IngestRunT, scale, rows, row);
        out.Add([row]);
        rows := rows + 1;
      }
      NextDay(day, scale);
      NextDay(day + 1, scale);
    }
    NextDay(DAYS, scale);
    ghost var first := rows;
    for day := 0 to HISTORY_DAYS
      invariant rows == first + 3 * day && out.Text() == Lines(IngestRunT, scale, rows)
    {
      for slot := 0 to HISTORY_SHOPS
        invariant rows == first + 3 * day + slot && out.Text() == Lines(IngestRunT, scale, rows)
      {
        var row := IngestRun(HISTORY_RUN_OFFSET + day * HISTORY_SHOPS + slot + 1, slot + 1, "succeeded");
        HistoryRunOf(day, slot, scale);
        OneLine(IngestRunT, scale, rows, row);
        out.Add([row]);
        rows := rows + 1;
      }
    }
    out.Flush();
    file := out.written;
  }

  lemma RunOfSlot(day: nat, slot: nat, scale: Scale)
    requires day < DAYS && slot < Slots(scale)
    ensures RunsBefore(day, slot + 1, scale) == RunsBefore(day, slot, scale) + 1 <= Window(IngestRunT, scale)
    ensures RowAt(IngestRunT, RunsBefore(day, slot, scale), scale)
         == IngestRun(RunId(day, slot, scale), slot % 4 + 1,
                      if H(RunId(day, slot, scale)) % 50 != 0 then "succeeded" else "partial")
  {
    InSlots(day, slot, Slots(scale));
    hide H;
  }

  lemma InSlots(day: nat, slot: nat, slots: nat)
    requires slot < slots && day < DAYS
    ensures Quot(day * slots + slot, slots) == day && Rem(day * slots + slot, slots) == slot
    ensures day * slots + slot < DAYS * slots
  {
    QuotRemOf(day, slot, slots);
    hide Quot, Rem;
    TimesGrows(slots);
    assert day * slots + slots == (day + 1) * slots <= DAYS * slots;
  }

  lemma HistoryRunOf(day: nat, slot: nat, scale: Scale)
    requires day < HISTORY_DAYS && slot < HISTORY_SHOPS
    ensures RowAt(IngestRunT, Window(IngestRunT, scale) + 3 * day + slot, scale)
         == IngestRun(HISTORY_RUN_OFFSET + day * HISTORY_SHOPS + slot + 1, slot + 1, "succeeded")
  {
  }

  /** `gen_raw_artifact`: full chunks, then the history's days and shops on top of the last one. */
  method GenRawArtifact(scale: Scale) returns (file: seq<Row>, rows: nat)
    ensures file == Lines(RawArtifactT, scale, Count(RawArtifactT, scale)) && rows == |file|
  {
    hide WindowRow, HistoryRow, HistoryDigest;
    var out := new Output();
    rows := 0;
    for i := 0 to 14_000 * scale
      invariant out.Text() == Lines(RawArtifactT, scale, i) && rows == i
    {
      out.Add([WindowRow(RawArtifactT, i, scale)]);
      rows := rows + 1;
      out.FlushWhen(50_000);
      OneLine(RawArtifactT, scale, i, WindowRow(RawArtifactT, i, scale));
    }
    hide RowAt;
    for day := 0 to HISTORY_DAYS
      invariant out.Text() == Lines(RawArtifactT, scale, 14_000 * scale + 3 * day) && rows == 14_000 * scale + 3 * day
    {
      for slot := 0 to HISTORY_SHOPS
        invariant out.Text() == Lines(RawArtifactT, scale, 14_000 * scale + 3 * day + slot)
        invariant rows == 14_000 * scale + 3 * day + slot
      {
        var index := day * HISTORY_SHOPS + slot;
        var id := HISTORY_ID_OFFSET + index + 1;
        var row := RawArtifact(id, HISTORY_RUN_OFFSET + index + 1, slot + 1, HistoryDigest(id, index), 120_000);
        out.Add([row]);
        rows := rows + 1;
        HistoryArtifactOf(day, slot, scale);
        OneLine(RawArtifactT, scale, 14_000 * scale + 3 * day + slot, row);
      }
    }
    out.Flush();
    file := out.written;
  }

  lemma HistoryArtifactOf(day: nat, slot: nat, scale: Scale)
    requires day < HISTORY_DAYS && slot < HISTORY_SHOPS
    ensures var index := day * HISTORY_SHOPS + slot;
            var id := HISTORY_ID_OFFSET + index + 1;
            RowAt(RawArtifactT, 14_000 * scale + 3 * day + slot, scale)
            == RawArtifact(id, HISTORY_RUN_OFFSET + index + 1, slot + 1, HistoryDigest(id, index), 120_000)
  {
    hide HistoryDigest;
  }

  /** The files, with the sources and shops loaded beside them, are the seed. */
  lemma SeedIsTheFiles(scale: Scale)
    ensures forall r :: r in Seed(scale) <==> exists t: Table :: r in Lines(t, scale, Count(t, scale))
  {
    hide RowAt, Count;
    forall r: Row
      ensures r in Seed(scale) <==> exists t: Table :: r in Lines(t, scale, Count(t, scale))
    {
      if r in Seed(scale) {
        var t: Table, j: nat :| j < Count(t, scale) && RowAt(t, j, scale) == r;
        assert Lines(t, scale, Count(t, scale))[j] == r;
      }
    }
  }
}

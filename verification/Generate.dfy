/**
 * The deterministic seed (generate.py, config.py): every row is a function of its position in its
 * table's file, by division and remainder alone.
 */
module Generate {
  import opened Text
  import opened Hash
  import opened Schema

  // ------------------------------------------------------------ config.py

  const SOURCE_SLUGS := ["hareruya2", "yuyutei", "fullcomp-ikebukuro", "manual-import"]
  const SHOP_SLUGS := ["hareruya2", "yuyutei", "fullcomp-ikebukuro", "manual"]
  const CONDITIONS := ["A", "B", "C", "PSA10"]
  const CURRENCY := "JPY"
  const TCG := "pokemon"

  const DAYS := 28
  const HISTORY_CARDS := 200
  const HISTORY_DAYS := 365
  const HISTORY_SHOPS := 3
  const HISTORY_ROWS := HISTORY_CARDS * HISTORY_DAYS * HISTORY_SHOPS

  function Cards(scale: nat): nat {
    12_000 * scale
  }

  // ---------------------------------------------------------- generate.py

  const BASE_DAY := 20_680  // 2026-08-15 as a day number
  const HISTORY_ID_OFFSET := 900_000_000
  const HISTORY_RUN_OFFSET := 9_000_000
  const RECORDS_PER_RUN := 60
  const RARITIES := ["C", "U", "R", "RR", "SR", "SAR", "UR"]
  const EDITIONS := ["1st", "unlimited"]
  const LANGUAGES := ["ja", "en"]
  const PENDING_REASONS := ["parse_ambiguous", "price_out_of_range", "missing_condition"]

  /** The largest scale whose generated identifiers stay below the history's. */
  const MAX_SCALE := 1071

  type Scale = s: nat | s > 0 witness 1

  function PriceFor(index: int): (yen: nat)
    ensures 50 <= yen < 500_000
  {
    var bucket := H(index * 7 + 11) % 1000;
    if bucket < 700 then 50 + H(index) % 1200
    else if bucket < 950 then 1_200 + H(index * 3) % 12_000
    else if bucket < 999 then 13_000 + H(index * 5) % 90_000
    else 100_000 + H(index * 13) % 400_000
  }

  function CardFor(index: int, cards: nat): (card: nat)
    requires cards > 0
    ensures card < cards
  {
    H(index * 31 + 7) % cards
  }

  /** A calendar date; the day number stands for its year-month-day text. */
  function DayText(day: nat): string {
    Decimal(day)
  }

  function Condition(hash: nat): string {
    CONDITIONS[hash % 4]
  }

  function PriceType(hash: nat): string {
    if hash % 4 != 0 then "buy" else "sell"
  }

  function Slots(scale: Scale): nat {
    4 * scale
  }

  function PerDay(scale: Scale): nat {
    500 * scale
  }

  function Quot(a: nat, b: nat): nat
    requires b > 0
  {
    a / b
  }

  function Rem(a: nat, b: nat): (r: nat)
    requires b > 0
    ensures r < b
  {
    a % b
  }

  /** `divmod(run_index, per_day)` */
  function DayOf(run: nat, scale: Scale): nat {
    Quot(run, PerDay(scale))
  }

  function OffsetOf(run: nat, scale: Scale): nat {
    Rem(run, PerDay(scale))
  }

  function SlotOf(run: nat, scale: Scale): (slot: nat)
    ensures slot < Slots(scale)
  {
    Rem(OffsetOf(run, scale), Slots(scale))
  }

  /** The fields an observation is derived from; reparsing reads them from here again. */
  datatype Fields = Fields(runIndex: nat, row: nat, sourceId: nat, day: nat, card: nat, amount: nat,
                           condition: string, priceType: string, observed: nat)
  {
    function KeyFields(): KeyFields
      requires 1 <= sourceId <= 4
    {
      Text.KeyFields(SOURCE_SLUGS[sourceId - 1], runIndex, row, priceType, DayText(BASE_DAY + day), condition)
    }
  }

  function SourceOfRun(runIndex: nat, scale: Scale): (source: nat)
    ensures 1 <= source <= 4
  {
    SlotOf(runIndex, scale) % 4 + 1
  }

  function ObservationFields(i: nat, scale: Scale): Fields {
    var run := i / RECORDS_PER_RUN;
    var day := DayOf(run, scale);
    Fields(run, i % RECORDS_PER_RUN, SourceOfRun(run, scale), day, CardFor(i, Cards(scale)), PriceFor(i),
           Condition(H(i + 5)), PriceType(H(i + 3)),
           (BASE_DAY + day) * 86_400 + 10_800 + OffsetOf(run, scale) % 3600)
  }

  /** Rows the load window contributes to a table. */
  function Window(t: Table, scale: Scale): nat {
    match t
    case SourceT => 4
    case ShopT => 4
    case CardT => Cards(scale)
    case IngestRunT => DAYS * Slots(scale)
    case RawArtifactT => 14_000 * scale
    case ProcessingRunT => 14_000 * scale
    case ExtractedRecordT => 840_000 * scale
    case CandidateT => 840_000 * scale
    case AttemptT => 1_680_000 * scale
    case ObservationT => 840_000 * scale
    case ReviewT => 84_000 * scale
  }

  /** Rows one year of history contributes to a table. */
  function History(t: Table): nat {
    match t
    case IngestRunT => HISTORY_DAYS * HISTORY_SHOPS
    case RawArtifactT => HISTORY_DAYS * HISTORY_SHOPS
    case ProcessingRunT => HISTORY_DAYS * HISTORY_SHOPS
    case ExtractedRecordT => HISTORY_ROWS
    case CandidateT => HISTORY_ROWS
    case AttemptT => 2 * HISTORY_ROWS
    case ObservationT => HISTORY_ROWS
    case _ => 0
  }

  function HistoryOffset(t: Table): nat {
    match t
    case IngestRunT => HISTORY_RUN_OFFSET
    case AttemptT => 2 * HISTORY_ID_OFFSET
    case _ => HISTORY_ID_OFFSET
  }

  function Count(t: Table, scale: Scale): nat {
    Window(t, scale) + History(t)
  }

  function WindowDigest(i: nat): string {
    Hex(8, H(i + 1)) + Hex(8, H(i + 2)) + Hex(8, H(i + 3)) + Hex(8, H(i + 4)) + Hex(8, i)
  }

  function HistoryDigest(artifactId: nat, index: nat): string {
    var w := Hex(8, H(artifactId));
    w + w + w + w + w + w + w + Hex(8, index)
  }

  /** The identifier of the run of one slot on one day. */
  function RunId(day: nat, slot: nat, scale: Scale): nat {
    day * Slots(scale) + slot + 1
  }

  /** The run that fetched artifact `i`. */
  function RunIdOf(i: nat, scale: Scale): nat {
    RunId(DayOf(i, scale), SlotOf(i, scale), scale)
  }

  function Score(base: int, hash: nat): real {
    (base + hash) as real / 1000.0
  }

  /** Row `j` of a table's window part. */
  function WindowRow(t: Table, j: nat, scale: Scale): Row
    requires j < Window(t, scale)
  {
    match t
    case SourceT => Source(j + 1, SOURCE_SLUGS[j], "active")
    case ShopT => Shop(j + 1, SHOP_SLUGS[j])
    case CardT =>
      var hv := H(j);
      Card(j, TCG, "SV" + Padded(3, j / 1000), Padded(3, j % 1000) + "/165", RARITIES[hv % 7],
           EDITIONS[hv / 256 % 2], LANGUAGES[hv / 4096 % 2])
    case IngestRunT =>
      var day, slot := Quot(j, Slots(scale)), Rem(j, Slots(scale));
      var id := RunId(day, slot, scale);
      IngestRun(id, slot % 4 + 1, if H(id) % 50 != 0 then "succeeded" else "partial")
    case RawArtifactT =>
      RawArtifact(j + 1, RunIdOf(j, scale), SourceOfRun(j, scale), WindowDigest(j), 5000 + H(j + 1) % 2_000_000)
    case ProcessingRunT => ProcessingRun(j + 1, j + 1, "price_table_parser", "1.0.0", "config/v1", 1)
    case ExtractedRecordT => ExtractedRecord(j + 1, j / RECORDS_PER_RUN + 1, j / RECORDS_PER_RUN + 1)
    case CandidateT =>
      var f := ObservationFields(j, scale);
      Candidate(j + 1, j + 1, f.sourceId, f.sourceId, f.amount, Some(CURRENCY), f.priceType, "v1")
    case AttemptT =>
      var i := j / 2;
      var card := CardFor(i, Cards(scale));
      if j % 2 == 0
      then Attempt(2 * i + 1, i + 1, Some(card), Score(970, H(i) % 30), "confirmed")
      else Attempt(2 * i + 2, i + 1, Some((card + 1 + H(i) % 97) % Cards(scale)),
                   Score(400, H(i + 1) % 400), "rejected")
    case ObservationT =>
      var run := j / RECORDS_PER_RUN;
      var day, source := DayOf(run, scale), SourceOfRun(run, scale);
      var priceType, condition := PriceType(H(j + 3)), Condition(H(j + 5));
      Observation(j + 1, j + 1, CardFor(j, Cards(scale)), source, source, run + 1, PriceFor(j), Some(CURRENCY),
                  priceType, condition, (BASE_DAY + day) * 86_400 + 10_800 + OffsetOf(run, scale) % 3600,
                  IdempotencyKey(KeyFields(SOURCE_SLUGS[source - 1], run, j % RECORDS_PER_RUN, priceType,
                                           DayText(BASE_DAY + day), condition)))
    case ReviewT =>
      var record := 10 * j;
      var run := record / RECORDS_PER_RUN;
      var hv := H(j + 77);
      if hv % 10 < 3
      then Review(j + 1, RunIdOf(run, scale), run + 1, None, Some(2 * record + 2), "identity_ambiguous",
                  "decided", hv % 5 + 1, 0)
      else Review(j + 1, RunIdOf(run, scale), run + 1, Some(record + 1), None, PENDING_REASONS[hv % 3],
                  "pending", hv % 5 + 1, 0)
  }

  // A history index runs over the cards of a shop, the shops of a day, and the days.

  function HistoryDay(index: nat): nat {
    index / (HISTORY_CARDS * HISTORY_SHOPS)
  }

  function HistoryShop(index: nat): (shop: nat)
    ensures shop < HISTORY_SHOPS
  {
    index % (HISTORY_CARDS * HISTORY_SHOPS) / HISTORY_CARDS
  }

  function HistoryCard(index: nat): (card: nat)
    ensures card < HISTORY_CARDS
  {
    index % (HISTORY_CARDS * HISTORY_SHOPS) % HISTORY_CARDS
  }

  /** The one artifact of a day and shop. */
  function HistoryArtifact(index: nat): (artifact: nat)
    ensures index < HISTORY_ROWS ==> artifact < HISTORY_DAYS * HISTORY_SHOPS
    ensures artifact % HISTORY_SHOPS == HistoryShop(index)
  {
    HistoryDay(index) * HISTORY_SHOPS + HistoryShop(index)
  }

  /** Row `index` of a table's history part: 200 cards a day and shop, 3 shops, 365 days. */
  function HistoryRow(t: Table, index: nat, scale: Scale): Row
    requires index < History(t)
  {
    var day, shop, card := HistoryDay(index), HistoryShop(index), HistoryCard(index);
    var artifact := HISTORY_ID_OFFSET + HistoryArtifact(index) + 1;
    match t
    case IngestRunT =>
      IngestRun(HISTORY_RUN_OFFSET + index + 1, index % HISTORY_SHOPS + 1, "succeeded")
    case RawArtifactT =>
      var id := HISTORY_ID_OFFSET + index + 1;
      RawArtifact(id, HISTORY_RUN_OFFSET + index + 1, index % HISTORY_SHOPS + 1, HistoryDigest(id, index), 120_000)
    case ProcessingRunT =>
      var id := HISTORY_ID_OFFSET + index + 1;
      ProcessingRun(id, id, "price_table_parser", "1.0.0", "config/v1", 1)
    case ExtractedRecordT => ExtractedRecord(HISTORY_ID_OFFSET + index + 1, artifact, artifact)
    case CandidateT =>
      Candidate(HISTORY_ID_OFFSET + index + 1, HISTORY_ID_OFFSET + index + 1, shop + 1, shop + 1,
                PriceFor(card * 1000 + day), Some(CURRENCY), "buy", "v1")
    case AttemptT => HistoryAttempt(index / 2, index % 2, scale)
    case ObservationT =>
      var condition := Condition(H(card));
      Observation(HISTORY_ID_OFFSET + index + 1, HISTORY_ID_OFFSET + index + 1, card, shop + 1, shop + 1,
                  artifact, PriceFor(card * 1000 + day), Some(CURRENCY), "buy", condition,
                  (BASE_DAY - HISTORY_DAYS + day) * 86_400 + 10_800,
                  IdempotencyKey(HistoryKey(index)))
  }

  function HistoryAttempt(index: nat, k: nat, scale: Scale): Row {
    var card := HistoryCard(index);
    if k == 0
    then Attempt(2 * HISTORY_ID_OFFSET + 2 * index + 1, HISTORY_ID_OFFSET + index + 1, Some(card),
                 Score(990, 0), "confirmed")
    else Attempt(2 * HISTORY_ID_OFFSET + 2 * index + 2, HISTORY_ID_OFFSET + index + 1,
                 Some((card + 3) % Cards(scale)), Score(510, 0), "rejected")
  }

  function HistoryKey(index: nat): KeyFields
    requires index < HISTORY_ROWS
  {
    KeyFields(SOURCE_SLUGS[HistoryShop(index)], HISTORY_ID_OFFSET + index, HistoryCard(index), "buy",
              DayText(BASE_DAY - HISTORY_DAYS + HistoryDay(index)), Condition(H(HistoryCard(index))))
  }

  function RowAt(t: Table, j: nat, scale: Scale): Row
    requires j < Count(t, scale)
  {
    if j < Window(t, scale) then WindowRow(t, j, scale) else HistoryRow(t, j - Window(t, scale), scale)
  }

  /** The whole seed: every line of every file, with the sources and shops loaded beside them. */
  function Seed(scale: Scale): set<Row> {
    set t: Table, j: nat | j < Count(t, scale) :: RowAt(t, j, scale)
  }
}

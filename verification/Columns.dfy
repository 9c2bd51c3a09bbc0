/**
 * What every stored row says by itself, whoever wrote it (generate.py, workload.py, ingest.py): an
 * observation's key spells out its own columns, a review names what it is about, and an attempt's
 * score goes with its result. And what lines of the seed or of a batch say of each other: when an
 * observation was made, which records are reviewed, which card is rejected. No constraint says so;
 * the generator and every transaction keep it.
 */
module Columns {
  import opened Text
  import opened Hash
  import opened Schema
  import opened Collation
  import opened Generate
  import opened Seeded
  import opened Trace
  import opened Workload
  import opened Jobs
  import opened Ledger

  /** The key can be taken apart again, into the columns stored beside it. */
  ghost predicate SpellsItself(o: Row)
    requires o.Observation?
  {
    && 1 <= o.sourceId <= 4 && o.shopId == o.sourceId && o.observedAt >= 0
    && 50 <= o.amount < 500_000 && o.currency == Some("JPY") && o.priceType in {"buy", "sell"}
    && var k := ParseKey(o.key);
       && k.Some? && k.value.slug == SOURCE_SLUGS[o.sourceId - 1]
       && k.value.priceType == o.priceType && k.value.condition == o.condition
       && k.value.date == Decimal(o.observedAt / 86_400)
  }

  /** A review is about a rejected attempt and decided, or about a record and pending. */
  predicate NamesItsSubject(v: Row)
    requires v.Review?
  {
    && (v.state == "decided" <==> v.attemptId.Some?) && (v.state == "pending" <==> v.recordId.Some?)
    && (v.attemptId.Some? <==> v.recordId.None?) && (v.reason == "identity_ambiguous" <==> v.state == "decided")
    && 1 <= v.priority <= 5 && v.lockVersion == 0
  }

  /** A confirmed attempt scored high, a rejected one low. */
  predicate ScoresItsResult(a: Row)
    requires a.Attempt?
  {
    && a.matchedCard.Some? && (a.result == "confirmed" || a.result == "rejected")
    && (a.result == "confirmed" <==> a.score >= 0.97) && (a.result == "rejected" <==> a.score < 0.8)
  }

  ghost predicate Speaks(r: Row) {
    && (r.Observation? ==> SpellsItself(r)) && (r.Review? ==> NamesItsSubject(r))
    && (r.Attempt? ==> ScoresItsResult(r))
  }

  // ---------------------------------------------------------- the seed

  lemma SeedLineSpeaks(t: Table, j: nat, scale: Scale)
    requires j < Count(t, scale)
    ensures Speaks(RowAt(t, j, scale))
  {
    IdOfRow(t, j, scale);
    match t
    case ObservationT => SeedKeySpells(j, scale);
    case ReviewT => ReviewSpeaks(j, scale);
    case AttemptT => AttemptSpeaks(j, scale);
    case _ => hide RowAt;
  }

  lemma SeedKeySpells(j: nat, scale: Scale)
    requires j < Count(ObservationT, scale)
    ensures RowAt(ObservationT, j, scale).Observation? && SpellsItself(RowAt(ObservationT, j, scale))
  {
    KeyOfObservation(j, scale);
    KeyRoundTrip(KeyAt(j, scale));
    if j < Window(ObservationT, scale) {
      WindowSpells(j, scale);
    } else {
      HistorySpells(j - Window(ObservationT, scale), scale);
    }
    hide WindowRow, HistoryRow, ParseKey, IdempotencyKey, HistoryKey, ObservationFields;
  }

  /** The columns beside a key are the fields it was made of. */
  ghost predicate MadeOf(o: Row, k: KeyFields) {
    && o.Observation? && 1 <= o.sourceId <= 4 && o.shopId == o.sourceId && o.observedAt >= 0
    && 50 <= o.amount < 500_000 && o.currency == Some("JPY") && o.priceType in {"buy", "sell"}
    && k.slug == SOURCE_SLUGS[o.sourceId - 1] && k.priceType == o.priceType && k.condition == o.condition
    && k.date == Decimal(o.observedAt / 86_400)
  }

  lemma WindowSpells(j: nat, scale: Scale)
    requires j < Window(ObservationT, scale)
    ensures MadeOf(WindowRow(ObservationT, j, scale), ObservationFields(j, scale).KeyFields())
  {
    hide H, SlotOf, CardFor, IdempotencyKey, Decimal, Condition, DayOf, OffsetOf;
  }

  lemma HistorySpells(index: nat, scale: Scale)
    requires index < HISTORY_ROWS
    ensures MadeOf(HistoryRow(ObservationT, index, scale), HistoryKey(index))
  {
    hide H, IdempotencyKey, Decimal, Condition, HistoryCard, HistoryArtifact;
  }

  lemma ReviewSpeaks(j: nat, scale: Scale)
    requires j < Count(ReviewT, scale)
    ensures RowAt(ReviewT, j, scale).Review? && NamesItsSubject(RowAt(ReviewT, j, scale))
  {
    hide H, RunIdOf;
  }

  lemma AttemptSpeaks(j: nat, scale: Scale)
    requires j < Count(AttemptT, scale)
    ensures RowAt(AttemptT, j, scale).Attempt? && ScoresItsResult(RowAt(AttemptT, j, scale))
  {
    hide H, CardFor, HistoryCard;
  }

  // ------------------------------------------------- lines and lines

  /**
   * An observation of the window was made between three and four in the morning of its run's day,
   * counted from the run's number, and comes from the source whose turn it was; likewise in the year
   * of history, with one run a day and shop.
   */
  lemma SeenOnItsDay(j: nat, scale: Scale)
    requires j < Count(ObservationT, scale)
    ensures ArtifactOf(j, scale) < Count(RawArtifactT, scale)
    ensures var o, a := RowAt(ObservationT, j, scale), RowAt(RawArtifactT, ArtifactOf(j, scale), scale);
            && o.Observation? && a.RawArtifact? && a.id == o.rawArtifactId
            && 10_800 <= o.observedAt % 86_400 < 14_400
            && (j < Window(ObservationT, scale) ==>
                  && 1 <= a.ingestRunId <= DAYS * 4 * scale
                  && o.observedAt / 86_400 == BASE_DAY + (a.ingestRunId - 1) / (4 * scale)
                  && o.sourceId == (a.ingestRunId - 1) % 4 + 1)
            && (j >= Window(ObservationT, scale) ==>
                  && 0 <= a.ingestRunId - 1 - HISTORY_RUN_OFFSET < HISTORY_DAYS * 3
                  && o.observedAt / 86_400 == BASE_DAY - HISTORY_DAYS + (a.ingestRunId - 1 - HISTORY_RUN_OFFSET) / 3
                  && o.sourceId == (a.ingestRunId - 1 - HISTORY_RUN_OFFSET) % 3 + 1)
  {
    hide WindowRow, HistoryRow;
    ArtifactOfBound(j, scale);
    if j < Window(ObservationT, scale) {
      WindowDay(j, scale);
    } else {
      HistoryDaySeen(j - Window(ObservationT, scale), scale);
    }
  }

  lemma WindowDay(j: nat, scale: Scale)
    requires j < Window(ObservationT, scale)
    ensures j / RECORDS_PER_RUN < Window(RawArtifactT, scale)
    ensures var o, a := WindowRow(ObservationT, j, scale), WindowRow(RawArtifactT, j / RECORDS_PER_RUN, scale);
            && o.Observation? && a.RawArtifact? && a.id == o.rawArtifactId
            && 10_800 <= o.observedAt % 86_400 < 14_400
            && 1 <= a.ingestRunId <= DAYS * 4 * scale
            && o.observedAt / 86_400 == BASE_DAY + (a.ingestRunId - 1) / (4 * scale)
            && o.sourceId == (a.ingestRunId - 1) % 4 + 1
  {
    hide WindowRow, RunIdOf, DayOf, SlotOf, Window;
    WindowTime(j, scale);
    RunNumber(j / RECORDS_PER_RUN, scale);
  }

  /** The columns of the two lines, in terms of the run's place in its day. */
  lemma WindowTime(j: nat, scale: Scale)
    requires j < Window(ObservationT, scale)
    ensures j / RECORDS_PER_RUN < Window(RawArtifactT, scale)
    ensures var o, a := WindowRow(ObservationT, j, scale), WindowRow(RawArtifactT, j / RECORDS_PER_RUN, scale);
            var run := j / RECORDS_PER_RUN;
            && o.Observation? && a.RawArtifact? && a.id == o.rawArtifactId && a.ingestRunId == RunIdOf(run, scale)
            && 10_800 <= o.observedAt % 86_400 < 14_400
            && o.observedAt / 86_400 == BASE_DAY + DayOf(run, scale) && o.sourceId == SlotOf(run, scale) % 4 + 1
  {
    hide DayOf, SlotOf, OffsetOf, RunIdOf, PriceFor, CardFor, H, IdempotencyKey, WindowDigest, DayText, Condition,
      PriceType;
  }

  lemma RunNumber(run: nat, scale: Scale)
    requires run < Window(RawArtifactT, scale)
    ensures var id := RunIdOf(run, scale);
            && 1 <= id <= DAYS * 4 * scale && (id - 1) / (4 * scale) == DayOf(run, scale)
            && (id - 1) % 4 == SlotOf(run, scale) % 4
  {
    RunIdBound(run, scale);
    FourTimes(DayOf(run, scale), SlotOf(run, scale), scale);
    hide DayOf, SlotOf;
  }

  lemma FourTimes(day: nat, slot: nat, scale: Scale)
    ensures (day * Slots(scale) + slot) % 4 == slot % 4
  {
    var q := day * scale;
    assert day * Slots(scale) == 4 * q;
  }

  lemma HistoryDaySeen(index: nat, scale: Scale)
    requires index < HISTORY_ROWS
    ensures var o, a := HistoryRow(ObservationT, index, scale),
                        HistoryRow(RawArtifactT, HistoryArtifact(index), scale);
            && o.Observation? && a.RawArtifact? && a.id == o.rawArtifactId
            && 10_800 <= o.observedAt % 86_400 < 14_400
            && 0 <= a.ingestRunId - 1 - HISTORY_RUN_OFFSET < HISTORY_DAYS * 3
            && o.observedAt / 86_400 == BASE_DAY - HISTORY_DAYS + (a.ingestRunId - 1 - HISTORY_RUN_OFFSET) / 3
            && o.sourceId == (a.ingestRunId - 1 - HISTORY_RUN_OFFSET) % 3 + 1
  {
    hide HistoryRow, HistoryDay, HistoryShop, HistoryArtifact;
    HistoryTime(index, scale);
    HistoryRun(HistoryArtifact(index), scale);
    ThirdOf(HistoryDay(index), HistoryShop(index));
    MorningTime(BASE_DAY - HISTORY_DAYS + HistoryDay(index));
  }

  lemma MorningTime(day: nat)
    ensures (day * 86_400 + 10_800) / 86_400 == day && (day * 86_400 + 10_800) % 86_400 == 10_800
  {
  }

  lemma ThirdOf(day: nat, shop: nat)
    requires shop < 3
    ensures (day * 3 + shop) / 3 == day && (day * 3 + shop) % 3 == shop
  {
  }

  lemma HistoryTime(index: nat, scale: Scale)
    requires index < HISTORY_ROWS
    ensures var o := HistoryRow(ObservationT, index, scale);
            && o.Observation? && o.rawArtifactId == HISTORY_ID_OFFSET + HistoryArtifact(index) + 1
            && o.observedAt == (BASE_DAY - HISTORY_DAYS + HistoryDay(index)) * 86_400 + 10_800
            && o.sourceId == HistoryShop(index) + 1
    ensures HistoryArtifact(index) == HistoryDay(index) * 3 + HistoryShop(index)
  {
    HistoryArtifactOf(index);
    hide HistoryDay, HistoryShop, HistoryCard, HistoryArtifact, H, PriceFor, IdempotencyKey, HistoryKey, Condition;
  }

  lemma HistoryArtifactOf(index: nat)
    ensures HistoryArtifact(index) == HistoryDay(index) * 3 + HistoryShop(index)
  {
    hide HistoryDay, HistoryShop;
  }

  lemma HistoryRun(artifact: nat, scale: Scale)
    requires artifact < HISTORY_DAYS * HISTORY_SHOPS
    ensures var a := HistoryRow(RawArtifactT, artifact, scale);
            a.RawArtifact? && a.id == HISTORY_ID_OFFSET + artifact + 1
            && a.ingestRunId == HISTORY_RUN_OFFSET + artifact + 1
  {
    hide HistoryDay, HistoryShop, HistoryCard, HistoryArtifact, HistoryDigest;
  }

  /** Review `j` is about record `i`, or about the attempt at it that was rejected. */
  predicate ReviewIsOf(j: nat, i: nat, scale: Scale)
    requires j < Count(ReviewT, scale) && i < Count(ExtractedRecordT, scale) && 2 * i + 1 < Count(AttemptT, scale)
  {
    var v, e, t := RowAt(ReviewT, j, scale), RowAt(ExtractedRecordT, i, scale), RowAt(AttemptT, 2 * i + 1, scale);
    v.Review? && (v.recordId == Some(e.id) || v.attemptId == Some(t.id))
  }

  /** Every tenth record of the window has a review, and no other. */
  lemma SeedReviewsEveryTenth(i: nat, scale: Scale)
    requires i < Window(ExtractedRecordT, scale)
    ensures 2 * i + 1 < Window(AttemptT, scale)
    ensures (exists j: nat :: j < Count(ReviewT, scale) && ReviewIsOf(j, i, scale)) <==> i % 10 == 0
  {
    hide ReviewIsOf;
    forall j: nat | j < Count(ReviewT, scale)
      ensures ReviewIsOf(j, i, scale) <==> i == 10 * j
    {
      TenthIsReviewed(j, i, scale);
    }
    if i % 10 == 0 {
      assert ReviewIsOf(i / 10, i, scale);
    }
  }

  lemma TenthIsReviewed(j: nat, i: nat, scale: Scale)
    requires j < Count(ReviewT, scale) && i < Window(ExtractedRecordT, scale) && 2 * i + 1 < Window(AttemptT, scale)
    ensures ReviewIsOf(j, i, scale) <==> i == 10 * j
  {
    ReviewColumns(j, scale);
    ReviewSpeaks(j, scale);
    IdOfRow(ExtractedRecordT, i, scale);
    IdOfRow(AttemptT, 2 * i + 1, scale);
    hide RowAt;
  }

  /** Review `m` of a batch is about record `i`. */
  predicate BatchReviewIsOf(o: Order, m: nat, i: nat) {
    ReviewRow(o, m).recordId == Some(RecordRow(o, i).id)
  }

  /** Every tenth record of a batch has a review, and no other. */
  lemma BatchReviewsEveryTenth(o: Order, i: nat)
    requires i < o.rows
    ensures (exists m: nat :: m < Reviews(o.rows) && BatchReviewIsOf(o, m, i)) <==> i % 10 == 0
  {
    hide BatchReviewIsOf;
    forall m: nat
      ensures BatchReviewIsOf(o, m, i) <==> i == 10 * m
    {
      BatchTenth(o, m, i);
    }
    if i % 10 == 0 {
      assert BatchReviewIsOf(o, i / 10, i);
    }
  }

  lemma BatchTenth(o: Order, m: nat, i: nat)
    ensures BatchReviewIsOf(o, m, i) <==> i == 10 * m
  {
  }

  /** A batch rejects another card than it confirms, but for two sizes of the catalogue. */
  lemma RejectsAnother(o: Order, i: nat)
    ensures var c, yes, no := CandidateRow(o, i), AttemptRow(o, 2 * i), AttemptRow(o, 2 * i + 1);
            && c.Candidate? && yes.Attempt? && no.Attempt? && yes.candidateId == no.candidateId == c.id
            && yes.result == "confirmed" && no.result == "rejected"
            && (yes.matchedCard != no.matchedCard <==> o.cards != 1 && o.cards != 7)
  {
    SevenOn(o.Card(i), o.cards);
    TwoAttempts(o, i);
    hide AttemptRow, CandidateRow;
  }

  lemma TwoAttempts(o: Order, i: nat)
    ensures var c, yes, no := CandidateRow(o, i), AttemptRow(o, 2 * i), AttemptRow(o, 2 * i + 1);
            && c.Candidate? && yes.Attempt? && no.Attempt? && yes.candidateId == no.candidateId == c.id
            && yes.result == "confirmed" && no.result == "rejected"
            && yes.matchedCard == Some(o.Card(i)) && no.matchedCard == Some((o.Card(i) + 7) % o.cards)
  {
    hide H, PriceFor, Score, PriceType;
    assert 2 * i / 2 == i && (2 * i + 1) / 2 == i;
  }

  lemma SevenOn(card: nat, cards: nat)
    requires card < cards
    ensures (card + 7) % cards == card <==> cards == 1 || cards == 7
  {
    if cards > 7 {
      assert (card + 7) % cards == if card + 7 < cards then card + 7 else card + 7 - cards;
    }
  }

  /** So does the seed, always. */
  lemma SeedRejectsAnother(i: nat, scale: Scale)
    requires i < Count(CandidateT, scale)
    ensures 2 * i + 1 < Count(AttemptT, scale)
    ensures var c, yes, no := RowAt(CandidateT, i, scale), RowAt(AttemptT, 2 * i, scale),
                              RowAt(AttemptT, 2 * i + 1, scale);
            && c.Candidate? && yes.Attempt? && no.Attempt? && yes.candidateId == no.candidateId == c.id
            && yes.result == "confirmed" && no.result == "rejected" && yes.matchedCard != no.matchedCard
  {
    hide WindowRow, HistoryRow, Cards;
    var w := Window(CandidateT, scale);
    if i < w {
      WindowRejectsAnother(i, scale);
    } else {
      HistoryRejectsAnother(i - w, scale);
    }
  }

  lemma WindowRejectsAnother(i: nat, scale: Scale)
    requires i < Window(CandidateT, scale)
    ensures 2 * i + 1 < Window(AttemptT, scale)
    ensures var c, yes, no := WindowRow(CandidateT, i, scale), WindowRow(AttemptT, 2 * i, scale),
                              WindowRow(AttemptT, 2 * i + 1, scale);
            && c.Candidate? && yes.Attempt? && no.Attempt? && yes.candidateId == no.candidateId == c.id
            && yes.result == "confirmed" && no.result == "rejected" && yes.matchedCard != no.matchedCard
  {
    hide WindowRow, H, CardFor, Window, Distance;
    WindowAttempts(i, scale);
    AheadOf(CardFor(i, Cards(scale)), Distance(i), Cards(scale));
  }

  /** How far the rejected card of candidate `i` is from the confirmed one. */
  function Distance(i: nat): (step: nat)
    ensures 0 < step < 98
  {
    1 + H(i) % 97
  }

  lemma WindowAttempts(i: nat, scale: Scale)
    requires i < Window(CandidateT, scale)
    ensures 2 * i + 1 < Window(AttemptT, scale)
    ensures var c, yes, no := WindowRow(CandidateT, i, scale), WindowRow(AttemptT, 2 * i, scale),
                              WindowRow(AttemptT, 2 * i + 1, scale);
            var card := CardFor(i, Cards(scale));
            && c.Candidate? && yes.Attempt? && no.Attempt? && yes.candidateId == no.candidateId == c.id
            && yes.result == "confirmed" && no.result == "rejected" && yes.matchedCard == Some(card)
            && no.matchedCard == Some((card + Distance(i)) % Cards(scale))
  {
    Halves(i);
    hide H, PriceFor, CardFor, SourceOfRun, DayOf, OffsetOf, Condition, PriceType, Score, ObservationFields, Cards;
  }

  lemma Halves(i: nat)
    ensures 2 * i / 2 == i && 2 * i % 2 == 0 && (2 * i + 1) / 2 == i && (2 * i + 1) % 2 == 1
  {
  }

  lemma HistoryRejectsAnother(index: nat, scale: Scale)
    requires index < HISTORY_ROWS
    ensures var c, yes, no := HistoryRow(CandidateT, index, scale), HistoryRow(AttemptT, 2 * index, scale),
                              HistoryRow(AttemptT, 2 * index + 1, scale);
            && c.Candidate? && yes.Attempt? && no.Attempt? && yes.candidateId == no.candidateId == c.id
            && yes.result == "confirmed" && no.result == "rejected" && yes.matchedCard != no.matchedCard
  {
    HistoryAttempts(index, scale);
    hide HistoryRow, HistoryCard;
    AheadOf(HistoryCard(index), 3, Cards(scale));
  }

  lemma HistoryAttempts(index: nat, scale: Scale)
    requires index < HISTORY_ROWS
    ensures var c, yes, no := HistoryRow(CandidateT, index, scale), HistoryRow(AttemptT, 2 * index, scale),
                              HistoryRow(AttemptT, 2 * index + 1, scale);
            && c.Candidate? && yes.Attempt? && no.Attempt? && yes.candidateId == no.candidateId == c.id
            && yes.result == "confirmed" && no.result == "rejected" && yes.matchedCard == Some(HistoryCard(index))
            && no.matchedCard == Some((HistoryCard(index) + 3) % Cards(scale))
  {
    Halves(index);
    hide PriceFor, HistoryArtifact, HistoryDay, HistoryShop, HistoryCard, Score, Cards;
  }

  lemma AheadOf(card: nat, step: nat, cards: nat)
    requires card < cards && 0 < step < cards
    ensures (card + step) % cards != card
  {
    assert (card + step) % cards == if card + step < cards then card + step else card + step - cards;
  }

  /** The four price ranges, and which hash chooses among them. */
  lemma PriceTiers(index: nat)
    ensures var bucket, yen := H(index * 7 + 11) % 1000, PriceFor(index);
            && (bucket < 700 ==> 50 <= yen < 1_250) && (700 <= bucket < 950 ==> 1_200 <= yen < 13_200)
            && (950 <= bucket < 999 ==> 13_000 <= yen < 103_000) && (bucket == 999 ==> 100_000 <= yen < 500_000)
  {
  }

  // ---------------------------------------------------------- the jobs

  lemma JobRowSpeaks(job: Job, p: Place, scale: Scale)
    requires Valid(job, scale) && InJob(job, p)
    ensures Speaks(RowIn(job, p, scale))
  {
    RowTable(job, p, scale);
    match p.table
    case ObservationT =>
      match job {
        case Ingest(o) => BatchSpells(o, p.index);
        case Reparse(artifact) => ReparseSpells(artifact, p.index, scale);
      }
    case ReviewT => hide H;
    case AttemptT => hide H, ObservationFields;
    case _ => hide RowIn;
  }

  lemma BatchSpells(o: Order, i: nat)
    ensures ObservationRow(o, i).Observation? && SpellsItself(ObservationRow(o, i))
  {
    KeyFieldsOf(o, i);
    KeyRoundTrip(ObservationKey(o, i));
    BatchMadeOf(o, i);
    hide ObservationRow, ObservationKey, IdempotencyKey, Decimal, ParseKey;
  }

  lemma BatchMadeOf(o: Order, i: nat)
    ensures MadeOf(ObservationRow(o, i), ObservationKey(o, i))
    ensures ObservationRow(o, i).key == IdempotencyKey(ObservationKey(o, i))
  {
    hide H, IdempotencyKey, Decimal, Condition;
  }

  lemma ReparseSpells(artifact: nat, i: nat, scale: Scale)
    requires artifact < 14_000 * scale && i < RECORDS_PER_RUN
    ensures ReparseObservation(artifact, i, scale).Observation? && SpellsItself(ReparseObservation(artifact, i, scale))
  {
    hide *;
    var j := artifact * RECORDS_PER_RUN + i;
    ReparseRepeats(artifact, i, scale);
    SeedKeySpells(j, scale);
    StillSpells(RowAt(ObservationT, j, scale), ReparseObservation(artifact, i, scale));
  }

  lemma StillSpells(o: Row, again: Row)
    requires o.Observation? && again.Observation? && SpellsItself(o)
    requires o.(id := again.id, candidateId := again.candidateId) == again
    ensures SpellsItself(again)
  {
    hide ParseKey, Decimal;
  }

  // ------------------------------------------------------ every ledger

  lemma BatchRowSpeaks(job: Job, n: nat, r: Row, scale: Scale)
    requires Valid(job, scale) && r in RowsOf(job, n, scale)
    ensures Speaks(r)
  {
    hide RowIn, PlaceAt, Kept, InJob, Size, Valid, Speaks;
    var j: nat :| j < n && j < Size(job) && Kept(job, PlaceAt(job, j)) && r == RowIn(job, PlaceAt(job, j), scale);
    JobRowSpeaks(job, PlaceAt(job, j), scale);
  }

  /** In every reachable state each stored row says what it should of itself. */
  lemma EveryRowSpeaks(ms: seq<Move>, engine: Engine, scale: Scale, r: Row)
    requires Discerning(engine) && scale <= MAX_SCALE
    ensures r in After(ms, engine, scale).store.committed ==> Speaks(r)
  {
    hide Sound, After, Seed, RowsOf, Size, Speaks, Valid;
    AfterIsSound(ms, engine, scale);
    var s := After(ms, engine, scale);
    SoundIsQuiet(s, scale);
    if r in Seed(scale) {
      var t, j := Seeded.Line(r, scale);
      SeedLineSpeaks(t, j, scale);
    } else if r in s.store.committed {
      var t :| t in s.log && r in RowsOf(s.log[t], Size(s.log[t]), scale);
      BatchRowSpeaks(s.log[t], Size(s.log[t]), r, scale);
    }
  }

  /** The key a stored observation has names the slug of the source stored under its source's number. */
  lemma KeyNamesTheSource(ms: seq<Move>, engine: Engine, scale: Scale, o: Row, source: Row)
    requires Discerning(engine) && scale <= MAX_SCALE && o.Observation? && source.Source?
    ensures var db := After(ms, engine, scale).store.committed;
            o in db && source in db && source.id == o.sourceId ==>
              ParseKey(o.key).Some? && ParseKey(o.key).value.slug == source.slug
  {
    hide After, Consistent, LogRows, ParseKey;
    var db := After(ms, engine, scale).store.committed;
    if o in db && source in db && source.id == o.sourceId {
      EveryRunIsSound(ms, engine, scale);
      EveryRowSpeaks(ms, engine, scale, o);
      InSeed(SourceT, source.id - 1, scale);
      OneRow(engine, db, source, RowAt(SourceT, source.id - 1, scale));
    }
  }

  lemma OneRow(engine: Engine, db: set<Row>, r: Row, q: Row)
    requires Consistent(engine, db) && r in db && q in db && PkOf(r) == PkOf(q)
    ensures r == q
  {
    assert Clash(engine, r, q);
  }

  /** The stored rows a review is about: a record of its artifact, or a rejected attempt at one. */
  ghost predicate AboutIts(db: set<Row>, v: Row, e: Row)
    requires v.Review?
  {
    && e in db && e.ExtractedRecord? && e.rawArtifactId == v.rawArtifactId
    && (v.state == "pending" ==> v.recordId == Some(e.id))
    && (v.state == "decided" ==> exists t, c :: AttemptAt(db, v, e, t, c))
  }

  ghost predicate AttemptAt(db: set<Row>, v: Row, e: Row, t: Row, c: Row)
    requires v.Review? && e.ExtractedRecord?
  {
    && t in db && t.Attempt? && v.attemptId == Some(t.id) && t.result == "rejected"
    && c in db && c.Candidate? && t.candidateId == c.id && c.extractedRecordId == e.id
  }

  lemma ReviewIsAbout(db: set<Row>, v: Row) returns (e: Row)
    requires Closed(db) && Coherent(db) && v in db && v.Review? && NamesItsSubject(v)
    ensures AboutIts(db, v, e)
  {
    assert Fits(db, v);
    if v.recordId.Some? {
      e := Find(db, v, Key(ExtractedRecordT, v.recordId.value));
    } else {
      var t := Find(db, v, Key(AttemptT, v.attemptId.value));
      var c := Find(db, t, Key(CandidateT, t.candidateId));
      e := Find(db, c, Key(ExtractedRecordT, c.extractedRecordId));
      assert AttemptAt(db, v, e, t, c);
    }
  }

  /**
   * In every reachable state a stored review is pending and names a record of its artifact, or is
   * decided and names a rejected attempt at such a record.
   */
  lemma EveryReviewIsAbout(ms: seq<Move>, engine: Engine, scale: Scale, v: Row)
    requires Discerning(engine) && scale <= MAX_SCALE && v.Review?
    ensures var db := After(ms, engine, scale).store.committed;
            v in db ==> NamesItsSubject(v) && exists e :: AboutIts(db, v, e)
  {
    hide After, Coherent, LogRows, AboutIts;
    EveryRunIsSound(ms, engine, scale);
    EveryRowSpeaks(ms, engine, scale, v);
    var db := After(ms, engine, scale).store.committed;
    if v in db {
      var e := ReviewIsAbout(db, v);
    }
  }
}

/** The generated seed satisfies every constraint, and its repeated columns agree (generate.py). */
module Seeded {
  import opened Text
  import opened Hash
  import opened Schema
  import opened Collation
  import opened Generate
  import opened Trace

  /** The identifier of line `j` of a table's file. */
  function IdAt(t: Table, j: nat, scale: Scale): nat {
    if t.CardT? then j
    else if j < Window(t, scale) then j + 1
    else HistoryOffset(t) + (j - Window(t, scale)) + 1
  }

  lemma QuotRem(a: nat, b: nat)
    requires b > 0
    ensures Quot(a, b) * b + Rem(a, b) == a
  {
  }

  lemma QuotRemOf(q: nat, r: nat, b: nat)
    requires r < b
    ensures Quot(q * b + r, b) == q && Rem(q * b + r, b) == r
  {
    var a := q * b + r;
    QuotRem(a, b);
    SameQuotient(q, Quot(a, b), r, Rem(a, b), b);
  }

  lemma TimesGrows(b: nat)
    ensures forall p, q :: p <= q ==> p * b <= q * b
  {
    forall p, q | p <= q
      ensures p * b <= q * b
    {
      assert (q - p) * b >= 0;
    }
  }

  lemma TimesApart(d: int, b: nat)
    ensures d >= 1 ==> d * b >= b
    ensures d <= -1 ==> d * b <= 0 - b
  {
    if d >= 1 {
      assert (d - 1) * b >= 0;
    } else if d <= -1 {
      assert (-d - 1) * b >= 0;
    }
  }

  lemma SameQuotient(q: int, p: int, r: int, s: int, b: nat)
    requires 0 <= r < b && 0 <= s < b && q * b + r == p * b + s
    ensures q == p && r == s
  {
    assert (q - p) * b == s - r;
    TimesApart(q - p, b);
  }

  lemma QuotBound(a: nat, b: nat, q: nat)
    requires b > 0 && a < q * b
    ensures Quot(a, b) < q
  {
    QuotRem(a, b);
    TimesGrows(b);
  }

  /** The run an artifact of the window points at is a line of the run file. */
  lemma RunIdBound(i: nat, scale: Scale)
    requires i < 14_000 * scale
    ensures 1 <= RunIdOf(i, scale) <= DAYS * Slots(scale)
    ensures Quot((RunIdOf(i, scale) - 1) as nat, Slots(scale)) == DayOf(i, scale)
    ensures Rem((RunIdOf(i, scale) - 1) as nat, Slots(scale)) == SlotOf(i, scale)
  {
    var day, slot, slots := DayOf(i, scale), SlotOf(i, scale), Slots(scale);
    QuotBound(i, PerDay(scale), 28);
    QuotRemOf(day, slot, slots);
    RowsBefore(day, slot, slots);
  }

  lemma RowsBefore(day: nat, slot: nat, slots: nat)
    requires day < 28 && slot < slots
    ensures day * slots + slot < 28 * slots
  {
    TimesGrows(slots);
    assert day * slots <= 27 * slots;
  }

  lemma IdOfWindowRow(t: Table, j: nat, scale: Scale)
    requires j < Window(t, scale)
    ensures PkOf(WindowRow(t, j, scale)) == Key(t, if t.CardT? then j else j + 1)
  {
    hide Quot, Rem, CardFor, ObservationFields, RunIdOf, H, PriceFor, WindowDigest, SourceOfRun, DayOf, OffsetOf,
      IdempotencyKey, DayText, Condition, PriceType, Padded;
    if t.IngestRunT? {
      QuotRem(j, Slots(scale));
    } else {
      hide Slots;
    }
  }

  lemma IdOfHistoryRow(t: Table, index: nat, scale: Scale)
    requires index < History(t)
    ensures PkOf(HistoryRow(t, index, scale)) == Key(t, HistoryOffset(t) + index + 1)
  {
    hide HistoryDay, HistoryShop, HistoryCard, HistoryArtifact, H, PriceFor, HistoryDigest, HistoryKey;
  }

  lemma IdOfRow(t: Table, j: nat, scale: Scale)
    requires j < Count(t, scale)
    ensures PkOf(RowAt(t, j, scale)) == Key(t, IdAt(t, j, scale))
  {
    hide WindowRow, HistoryRow;
    if j < Window(t, scale) {
      IdOfWindowRow(t, j, scale);
    } else {
      IdOfHistoryRow(t, j - Window(t, scale), scale);
    }
  }

  lemma IdInjective(t: Table, i: nat, j: nat, scale: Scale)
    requires scale <= MAX_SCALE && i < Count(t, scale) && j < Count(t, scale)
    requires IdAt(t, i, scale) == IdAt(t, j, scale)
    ensures i == j
  {
  }

  /** Just past the largest scale a generated record and a history record share an identifier. */
  lemma ScaleIsTheLargest(engine: Engine, scale: Scale)
    requires scale > MAX_SCALE
    ensures !Unique(engine, Seed(scale))
  {
    var i, j := HISTORY_ID_OFFSET, Window(ExtractedRecordT, scale);
    var r, q := RowAt(ExtractedRecordT, i, scale), RowAt(ExtractedRecordT, j, scale);
    IdOfRow(ExtractedRecordT, i, scale);
    IdOfRow(ExtractedRecordT, j, scale);
    InSeed(ExtractedRecordT, i, scale);
    InSeed(ExtractedRecordT, j, scale);
    assert r.rawArtifactId == HISTORY_ID_OFFSET / 60 + 1;
    assert q.rawArtifactId == HISTORY_ID_OFFSET + 1;
    assert Clash(engine, r, q);
  }

  lemma InSeed(t: Table, j: nat, scale: Scale)
    requires j < Count(t, scale)
    ensures RowAt(t, j, scale) in Seed(scale) && Has(Seed(scale), Key(t, IdAt(t, j, scale)))
  {
    IdOfRow(t, j, scale);
  }

  // ---------------------------------------------------------- uniqueness

  lemma Suffix8(s: string, p: string, m: nat, n: nat)
    requires m < WORD && n < WORD && s + Hex(8, m) == p + Hex(8, n) && |s| == |p|
    ensures m == n
  {
    var t := s + Hex(8, m);
    assert t[|s|..] == Hex(8, m) && (p + Hex(8, n))[|p|..] == Hex(8, n);
    Hex8Injective(m, n);
  }

  lemma WindowDigestInjective(i: nat, j: nat)
    requires i < WORD && j < WORD && WindowDigest(i) == WindowDigest(j)
    ensures i == j
  {
    var a, b := WindowDigest(i), WindowDigest(j);
    assert a == a[..32] + Hex(8, i) && b == b[..32] + Hex(8, j);
    Suffix8(a[..32], b[..32], i, j);
  }

  lemma HistoryDigestInjective(m: nat, i: nat, n: nat, j: nat)
    requires i < WORD && j < WORD && HistoryDigest(m, i) == HistoryDigest(n, j)
    ensures i == j
  {
    var a, b := HistoryDigest(m, i), HistoryDigest(n, j);
    assert a == a[..56] + Hex(8, i) && b == b[..56] + Hex(8, j);
    Suffix8(a[..56], b[..56], i, j);
  }

  /** A window digest has 40 digits, a history digest 64. */
  lemma DigestLengths(i: nat, artifact: nat, index: nat)
    ensures |WindowDigest(i)| == 40 && |HistoryDigest(artifact, index)| == 64
  {
  }

  lemma HashInjective(i: nat, j: nat, scale: Scale)
    requires scale <= MAX_SCALE && i < Count(RawArtifactT, scale) && j < Count(RawArtifactT, scale)
    requires RowAt(RawArtifactT, i, scale).contentHash == RowAt(RawArtifactT, j, scale).contentHash
    ensures i == j
  {
    var w := Window(RawArtifactT, scale);
    hide WindowDigest, HistoryDigest;
    if i < w && j < w {
      WindowDigestInjective(i, j);
    } else if i >= w && j >= w {
      HistoryDigestInjective(HISTORY_ID_OFFSET + (i - w) + 1, i - w, HISTORY_ID_OFFSET + (j - w) + 1, j - w);
    } else if i < w {
      DigestLengths(i, HISTORY_ID_OFFSET + (j - w) + 1, j - w);
    } else {
      DigestLengths(j, HISTORY_ID_OFFSET + (i - w) + 1, i - w);
    }
  }

  lemma CardInjective(i: nat, j: nat)
    requires "SV" + Padded(3, i / 1000) == "SV" + Padded(3, j / 1000)
    requires Padded(3, i % 1000) + "/165" == Padded(3, j % 1000) + "/165"
    ensures i == j
  {
    var a, b := Padded(3, i / 1000), Padded(3, j / 1000);
    assert ("SV" + a)[2..] == a && ("SV" + b)[2..] == b;
    var c, d := Padded(3, i % 1000), Padded(3, j % 1000);
    assert |c + "/165"| == |d + "/165"|;
    assert (c + "/165")[..|c|] == c && (d + "/165")[..|d|] == d;
    PaddedRoundTrip(3, i / 1000);
    PaddedRoundTrip(3, j / 1000);
    PaddedRoundTrip(3, i % 1000);
    PaddedRoundTrip(3, j % 1000);
  }

  /** The six fields the key of observation `j` is made of. */
  function KeyAt(j: nat, scale: Scale): KeyFields
    requires j < Count(ObservationT, scale)
  {
    if j < Window(ObservationT, scale) then ObservationFields(j, scale).KeyFields()
    else HistoryKey(j - Window(ObservationT, scale))
  }

  lemma KeyOfObservation(j: nat, scale: Scale)
    requires j < Count(ObservationT, scale)
    ensures KeyAt(j, scale).BarFree()
    ensures KeyAt(j, scale).artifact < HISTORY_ID_OFFSET + HISTORY_ROWS + 840_000 * scale
    ensures RowAt(ObservationT, j, scale).key == IdempotencyKey(KeyAt(j, scale))
  {
    if j < Window(ObservationT, scale) {
      WindowKeyBarFree(j, scale);
    } else {
      HistoryKeyBarFree(j - Window(ObservationT, scale));
    }
  }

  lemma WindowKeyBarFree(j: nat, scale: Scale)
    ensures ObservationFields(j, scale).KeyFields().BarFree()
  {
    BarFreeWords();
    DecimalRoundTrip(BASE_DAY + ObservationFields(j, scale).day);
  }

  lemma HistoryKeyBarFree(index: nat)
    requires index < HISTORY_ROWS
    ensures HistoryKey(index).BarFree()
  {
    BarFreeWords();
    DecimalRoundTrip(BASE_DAY - HISTORY_DAYS + HistoryDay(index));
  }

  lemma BarFreeWords()
    ensures forall i :: 0 <= i < 4 ==> NoBar(SOURCE_SLUGS[i]) && NoBar(CONDITIONS[i])
    ensures NoBar("buy") && NoBar("sell")
  {
  }

  lemma FieldsTell(i: nat, j: nat, scale: Scale)
    requires scale <= MAX_SCALE && i < Count(ObservationT, scale) && j < Count(ObservationT, scale)
    ensures KeyAt(i, scale).artifact == KeyAt(j, scale).artifact && KeyAt(i, scale).row == KeyAt(j, scale).row
            ==> i == j
  {
    hide H, PriceFor, CardFor, SlotOf, DayText;
  }

  lemma KeyInjectiveAt(i: nat, j: nat, scale: Scale)
    requires scale <= MAX_SCALE && i < Count(ObservationT, scale) && j < Count(ObservationT, scale)
    requires RowAt(ObservationT, i, scale).key == RowAt(ObservationT, j, scale).key
    ensures i == j
  {
    KeyOfObservation(i, scale);
    KeyOfObservation(j, scale);
    FieldsTell(i, j, scale);
    hide RowAt, IdempotencyKey, KeyAt;
    KeyInjective(KeyAt(i, scale), KeyAt(j, scale));
  }

  lemma SameTable(r: Row, q: Row)
    requires Clash(Postgres, r, q)
    ensures TableOf(r) == TableOf(q)
  {
  }

  /** No two lines of the seed claim the same primary key or the same unique key. */
  lemma SeedDistinct(engine: Engine, t: Table, i: nat, u: Table, j: nat, scale: Scale)
    requires Discerning(engine) && scale <= MAX_SCALE && i < Count(t, scale) && j < Count(u, scale)
    requires Clash(engine, RowAt(t, i, scale), RowAt(u, j, scale))
    ensures t == u && i == j
  {
    hide RowAt, Clash, Cased, Discerning;
    LineIsCased(t, i, scale);
    LineIsCased(u, j, scale);
    CasedClash(engine, RowAt(t, i, scale), RowAt(u, j, scale));
    LinesDistinct(t, i, u, j, scale);
  }

  lemma LinesDistinct(t: Table, i: nat, u: Table, j: nat, scale: Scale)
    requires scale <= MAX_SCALE && i < Count(t, scale) && j < Count(u, scale)
    requires Clash(Postgres, RowAt(t, i, scale), RowAt(u, j, scale))
    ensures t == u && i == j
  {
    var r, q := RowAt(t, i, scale), RowAt(u, j, scale);
    IdOfRow(t, i, scale);
    IdOfRow(u, j, scale);
    SameTable(r, q);
    hide RowAt, IdAt, UniqueOf;
    if PkOf(r) == PkOf(q) {
      IdInjective(t, i, j, scale);
    } else {
      SameUniqueKey(t, i, j, scale);
    }
  }

  lemma SameUniqueKey(t: Table, i: nat, j: nat, scale: Scale)
    requires scale <= MAX_SCALE && i < Count(t, scale) && j < Count(t, scale)
    requires UniqueOf(Postgres, RowAt(t, i, scale)) == UniqueOf(Postgres, RowAt(t, j, scale)) != NoUnique
    ensures i == j
  {
    IdOfRow(t, i, scale);
    IdOfRow(t, j, scale);
    match t
    case SourceT =>
    case ShopT =>
    case CardT => CardInjective(i, j);
    case RawArtifactT => HashInjective(i, j, scale);
    case ProcessingRunT => IdInjective(t, i, j, scale);
    case CandidateT => IdInjective(t, i, j, scale);
    case ObservationT => KeyInjectiveAt(i, j, scale);
    case _ =>
  }

  /** Every line keeps to one case in each text of its unique key. */
  lemma LineIsCased(t: Table, j: nat, scale: Scale)
    requires j < Count(t, scale)
    ensures Cased(RowAt(t, j, scale))
  {
    hide RowAt, Cased, Count;
    match t
    case CardT => CardIsCased(j, scale);
    case RawArtifactT => ArtifactIsCased(j, scale);
    case ObservationT => ObservationIsCased(j, scale);
    case _ => PlainLineIsCased(t, j, scale);
  }

  lemma CardIsCased(j: nat, scale: Scale)
    requires j < Count(CardT, scale)
    ensures Cased(RowAt(CardT, j, scale))
  {
    PaddedHasNoCase(3, j / 1000);
    PaddedHasNoCase(3, j % 1000);
    CardWords();
    hide H, Padded, NoCapitals;
  }

  lemma CardWords()
    ensures forall i :: 0 <= i < 7 ==> NoSmall(RARITIES[i])
    ensures forall i :: 0 <= i < 2 ==> NoCapitals(EDITIONS[i]) && NoCapitals(LANGUAGES[i])
    ensures NoCapitals(TCG)
  {
  }

  lemma PlainLineIsCased(t: Table, j: nat, scale: Scale)
    requires j < Count(t, scale) && t !in {CardT, RawArtifactT, ObservationT}
    ensures Cased(RowAt(t, j, scale))
  {
    hide H, PriceFor, CardFor, SlotOf, RunIdOf, ObservationFields, HistoryShop, HistoryDay, HistoryCard, Hex, Decimal;
    SlugsAreCased();
    ProcessorWords();
    hide NoCapitals;
    IdOfRow(t, j, scale);
  }

  lemma SlugsAreCased()
    ensures forall i :: 0 <= i < 4 ==> NoCapitals(SOURCE_SLUGS[i]) && NoCapitals(SHOP_SLUGS[i])
  {
    ShortSlugs();
    LongSlugs();
    hide NoCapitals;
  }

  lemma ShortSlugs()
    ensures NoCapitals("hareruya2") && NoCapitals("yuyutei") && NoCapitals("manual")
  {
  }

  lemma LongSlugs()
    ensures NoCapitals("fullcomp-ikebukuro") && NoCapitals("manual-import")
  {
  }

  lemma ProcessorWords()
    ensures NoCapitals("price_table_parser") && NoCapitals("config/v1") && NoCapitals("config/v2")
    ensures NoCapitals("1.0.0") && NoCapitals("1.1.0") && NoCapitals("v1") && NoCapitals("v2")
  {
    ConfigWords();
    VersionWords();
    hide NoCapitals;
  }

  lemma ConfigWords()
    ensures NoCapitals("price_table_parser") && NoCapitals("config/v1") && NoCapitals("config/v2")
  {
  }

  lemma VersionWords()
    ensures NoCapitals("1.0.0") && NoCapitals("1.1.0") && NoCapitals("v1") && NoCapitals("v2")
  {
  }

  lemma ArtifactIsCased(j: nat, scale: Scale)
    requires j < Count(RawArtifactT, scale)
    ensures Cased(RowAt(RawArtifactT, j, scale))
  {
    hide H, Hex, SlotOf, RunIdOf, WindowDigest, HistoryDigest;
    if j < Window(RawArtifactT, scale) {
      WindowDigestIsCased(j);
    } else {
      var index := j - Window(RawArtifactT, scale);
      HistoryDigestIsCased(HISTORY_ID_OFFSET + index + 1, index);
    }
  }

  lemma WindowDigestIsCased(i: nat)
    ensures NoCapitals(WindowDigest(i))
  {
    hide H, Hex;
    HexHasNoCapitals(8, H(i + 1));
    HexHasNoCapitals(8, H(i + 2));
    HexHasNoCapitals(8, H(i + 3));
    HexHasNoCapitals(8, H(i + 4));
    HexHasNoCapitals(8, i);
  }

  lemma HistoryDigestIsCased(artifact: nat, index: nat)
    ensures NoCapitals(HistoryDigest(artifact, index))
  {
    hide H, Hex;
    HexHasNoCapitals(8, H(artifact));
    HexHasNoCapitals(8, index);
  }

  lemma ObservationIsCased(j: nat, scale: Scale)
    requires j < Count(ObservationT, scale)
    ensures Cased(RowAt(ObservationT, j, scale))
  {
    KeyOfObservation(j, scale);
    KeyAtIsCased(j, scale);
    hide IdempotencyKey, KeyAt, CasedKey;
    KeyIsCased(KeyAt(j, scale));
    IdOfRow(ObservationT, j, scale);
    hide RowAt;
  }

  lemma KeyAtIsCased(j: nat, scale: Scale)
    requires j < Count(ObservationT, scale)
    ensures var k := KeyAt(j, scale);
            && NoCapitals(k.slug) && NoCapitals(k.priceType) && NoCapitals(k.date)
            && NoSmall(k.condition) && NoBar(k.condition)
  {
    CasedWords();
    SlugsAreCased();
    BarFreeWords();
    hide H, Decimal, PriceFor, CardFor, SlotOf, NoCapitals, NoSmall, NoBar;
    if j < Window(ObservationT, scale) {
      DecimalHasNoCase(BASE_DAY + ObservationFields(j, scale).day);
    } else {
      DecimalHasNoCase(BASE_DAY - HISTORY_DAYS + HistoryDay(j - Window(ObservationT, scale)));
    }
  }

  lemma CasedWords()
    ensures forall i :: 0 <= i < 4 ==> NoSmall(CONDITIONS[i])
    ensures NoCapitals("buy") && NoCapitals("sell")
  {
  }

  // ------------------------------------------------------ foreign keys

  /** The artifact line an extracted record, candidate or observation line came from. */
  function ArtifactOf(j: nat, scale: Scale): nat
    requires j < Count(ExtractedRecordT, scale)
  {
    var w := Window(ExtractedRecordT, scale);
    if j < w then j / RECORDS_PER_RUN
    else Window(RawArtifactT, scale) + HistoryArtifact(j - w)
  }

  function RunOf(i: nat, scale: Scale): (run: nat)
    requires i < Count(RawArtifactT, scale)
    ensures run < Count(IngestRunT, scale)
  {
    if i < Window(RawArtifactT, scale) then RunIdBound(i, scale); RunIdOf(i, scale) - 1
    else Window(IngestRunT, scale) + (i - Window(RawArtifactT, scale))
  }

  lemma ArtifactOfBound(j: nat, scale: Scale)
    requires j < Count(ExtractedRecordT, scale)
    ensures ArtifactOf(j, scale) < Count(RawArtifactT, scale)
  {
  }

  /** A stored line, by the key another line refers to it with. */
  lemma Stored(t: Table, j: nat, scale: Scale, id: int)
    requires j < Count(t, scale) && id == IdAt(t, j, scale)
    ensures Has(Seed(scale), Key(t, id))
  {
    InSeed(t, j, scale);
  }

  lemma SourcesAndShops(source: int, scale: Scale)
    requires 1 <= source <= 4
    ensures Has(Seed(scale), Key(SourceT, source)) && Has(Seed(scale), Key(ShopT, source))
  {
    Stored(SourceT, source - 1, scale, source);
    Stored(ShopT, source - 1, scale, source);
  }

  ghost predicate RefsStored(t: Table, j: nat, scale: Scale)
    requires j < Count(t, scale)
  {
    forall k :: k in Refs(RowAt(t, j, scale)) ==> Has(Seed(scale), k)
  }

  lemma ArtifactRefs(j: nat, scale: Scale)
    requires j < Count(RawArtifactT, scale)
    ensures RefsStored(RawArtifactT, j, scale)
  {
    ArtifactColumns(j, scale);
    hide Seed, RowAt, IdAt, RunOf;
    var r := RowAt(RawArtifactT, j, scale);
    SourcesAndShops(r.sourceId, scale);
    Stored(IngestRunT, RunOf(j, scale), scale, r.ingestRunId);
  }

  lemma ArtifactColumns(j: nat, scale: Scale)
    requires j < Count(RawArtifactT, scale)
    ensures var r := RowAt(RawArtifactT, j, scale);
            r.RawArtifact? && r.ingestRunId == IdAt(IngestRunT, RunOf(j, scale), scale) && 1 <= r.sourceId <= 4
  {
    if j < Window(RawArtifactT, scale) {
      RunIdBound(j, scale);
      hide RunIdOf, SlotOf, WindowDigest;
    } else {
      hide HistoryDigest;
    }
  }

  lemma RecordRefs(j: nat, scale: Scale)
    requires j < Count(ExtractedRecordT, scale)
    ensures RefsStored(ExtractedRecordT, j, scale)
  {
    hide Seed;
    var r := RowAt(ExtractedRecordT, j, scale);
    ArtifactOfBound(j, scale);
    Stored(ProcessingRunT, ArtifactOf(j, scale), scale, r.processingRunId);
    Stored(RawArtifactT, ArtifactOf(j, scale), scale, r.rawArtifactId);
  }

  lemma CandidateRefs(j: nat, scale: Scale)
    requires j < Count(CandidateT, scale)
    ensures RefsStored(CandidateT, j, scale)
  {
    hide Seed, SlotOf, PriceFor;
    var r := RowAt(CandidateT, j, scale);
    SourcesAndShops(r.sourceId, scale);
    Stored(ExtractedRecordT, j, scale, r.extractedRecordId);
  }

  lemma AttemptRefs(j: nat, scale: Scale)
    requires j < Count(AttemptT, scale)
    ensures RefsStored(AttemptT, j, scale)
  {
    hide Seed, CardFor, H;
    var r := RowAt(AttemptT, j, scale);
    Stored(CandidateT, j / 2, scale, r.candidateId);
    Stored(CardT, r.matchedCard.value, scale, r.matchedCard.value);
  }

  lemma ObservationRefs(j: nat, scale: Scale)
    requires j < Count(ObservationT, scale)
    ensures RefsStored(ObservationT, j, scale)
  {
    hide Seed, SlotOf, PriceFor, CardFor, H, IdempotencyKey, DayText;
    var r := RowAt(ObservationT, j, scale);
    SourcesAndShops(r.sourceId, scale);
    ArtifactOfBound(j, scale);
    Stored(CandidateT, j, scale, r.candidateId);
    Stored(CardT, r.cardId, scale, r.cardId);
    Stored(RawArtifactT, ArtifactOf(j, scale), scale, r.rawArtifactId);
  }

  lemma ReviewRefs(j: nat, scale: Scale)
    requires j < Count(ReviewT, scale)
    ensures RefsStored(ReviewT, j, scale)
  {
    hide Seed, H, RunIdOf;
    var i := 10 * j / RECORDS_PER_RUN;
    assert i < Window(RawArtifactT, scale);
    RunIdBound(i, scale);
    Stored(IngestRunT, RunOf(i, scale), scale, RunIdOf(i, scale));
    Stored(RawArtifactT, i, scale, i + 1);
    Stored(ExtractedRecordT, 10 * j, scale, 10 * j + 1);
    Stored(AttemptT, 20 * j + 1, scale, 20 * j + 2);
    ReviewColumns(j, scale);
  }

  lemma ReviewColumns(j: nat, scale: Scale)
    requires j < Count(ReviewT, scale)
    ensures var r, i := RowAt(ReviewT, j, scale), 10 * j / RECORDS_PER_RUN;
            && r.Review? && r.ingestRunId == RunIdOf(i, scale) && r.rawArtifactId == i + 1
            && (r.recordId == None || r.recordId == Some(10 * j + 1))
            && (r.attemptId == None || r.attemptId == Some(20 * j + 2))
  {
  }

  lemma ReferencesStored(t: Table, j: nat, scale: Scale)
    requires j < Count(t, scale)
    ensures RefsStored(t, j, scale)
  {
    match t
    case IngestRunT => SourcesAndShops(RowAt(t, j, scale).sourceId, scale);
    case RawArtifactT => ArtifactRefs(j, scale);
    case ProcessingRunT => Stored(RawArtifactT, j, scale, RowAt(t, j, scale).rawArtifactId);
    case ExtractedRecordT => RecordRefs(j, scale);
    case CandidateT => CandidateRefs(j, scale);
    case AttemptT => AttemptRefs(j, scale);
    case ObservationT => ObservationRefs(j, scale);
    case ReviewT => ReviewRefs(j, scale);
    case _ =>
  }

  lemma LinesChecked(engine: Engine, t: Table, j: nat, scale: Scale)
    requires j < Count(t, scale)
    ensures Checks(engine, RowAt(t, j, scale))
  {
    hide H, SlotOf, CardFor, RunIdOf, WindowDigest, HistoryDigest, IdempotencyKey, Padded, Collated;
  }

  /**
   * Up to the largest scale the whole seed, loaded with foreign keys switched off, nevertheless
   * satisfies every primary key, unique key, foreign key and check, on either engine.
   */
  lemma SeedConsistent(engine: Engine, scale: Scale)
    requires Discerning(engine) && scale <= MAX_SCALE
    ensures Consistent(engine, Seed(scale))
  {
    hide Clash, Checks, Discerning;
    forall r, q | r in Seed(scale) && q in Seed(scale) && Clash(engine, r, q)
      ensures r == q
    {
      var t, i := Line(r, scale);
      var u, j := Line(q, scale);
      SeedDistinct(engine, t, i, u, j, scale);
    }
    forall r | r in Seed(scale)
      ensures Checks(engine, r) && forall k :: k in Refs(r) ==> Has(Seed(scale), k)
    {
      var t, j := Line(r, scale);
      LinesChecked(engine, t, j, scale);
      ReferencesStored(t, j, scale);
      assert RefsStored(t, j, scale);
    }
  }

  lemma Line(r: Row, scale: Scale) returns (t: Table, j: nat)
    requires r in Seed(scale)
    ensures j < Count(t, scale) && r == RowAt(t, j, scale)
  {
    t, j :| j < Count(t, scale) && r == RowAt(t, j, scale);
  }

  // -------------------------------------------------------- agreement

  lemma Lookup(t: Table, j: nat, scale: Scale)
    requires scale <= MAX_SCALE && j < Count(t, scale)
    ensures Only(Seed(scale), Key(t, IdAt(t, j, scale)), RowAt(t, j, scale))
  {
    forall q | q in Seed(scale) && PkOf(q) == Key(t, IdAt(t, j, scale))
      ensures q == RowAt(t, j, scale)
    {
      var u, i := Line(q, scale);
      IdOfRow(t, j, scale);
      LinesDistinct(u, i, t, j, scale);
    }
  }

  /** The source an artifact line and its run line both carry. */
  lemma RunSource(i: nat, scale: Scale)
    requires i < Count(RawArtifactT, scale)
    ensures RowAt(IngestRunT, RunOf(i, scale), scale).sourceId == RowAt(RawArtifactT, i, scale).sourceId
  {
    var w := Window(RawArtifactT, scale);
    if i < w {
      WindowRunSource(i, scale);
    } else {
      HistoryRunSource(i - w, scale);
    }
    hide WindowRow, HistoryRow;
  }

  lemma WindowRunSource(i: nat, scale: Scale)
    requires i < Window(RawArtifactT, scale)
    ensures 1 <= RunIdOf(i, scale) <= Window(IngestRunT, scale)
    ensures WindowRow(IngestRunT, RunIdOf(i, scale) - 1, scale).sourceId
            == WindowRow(RawArtifactT, i, scale).sourceId
  {
    RunIdBound(i, scale);
    hide RunIdOf, WindowDigest, H;
  }

  lemma HistoryRunSource(index: nat, scale: Scale)
    requires index < History(RawArtifactT)
    ensures HistoryRow(IngestRunT, index, scale).sourceId == HistoryRow(RawArtifactT, index, scale).sourceId
  {
    hide HistoryDigest, HistoryDay, HistoryShop, HistoryCard, HistoryArtifact;
  }

  lemma RecordColumns(j: nat, scale: Scale)
    requires j < Count(ExtractedRecordT, scale)
    ensures ArtifactOf(j, scale) < Count(RawArtifactT, scale)
    ensures var r, id := RowAt(ExtractedRecordT, j, scale), IdAt(RawArtifactT, ArtifactOf(j, scale), scale);
            r.ExtractedRecord? && r.rawArtifactId == id && r.processingRunId == id
            && id == IdAt(ProcessingRunT, ArtifactOf(j, scale), scale)
  {
    ArtifactOfBound(j, scale);
  }

  lemma CandidateColumns(j: nat, scale: Scale)
    requires j < Count(CandidateT, scale)
    ensures var c, o := RowAt(CandidateT, j, scale), RowAt(ObservationT, j, scale);
            && c.Candidate? && o.Observation?
            && c.extractedRecordId == IdAt(ExtractedRecordT, j, scale)
            && o.candidateId == IdAt(CandidateT, j, scale)
            && c.sourceId == o.sourceId && c.shopId == o.shopId
            && c.amount == o.amount && c.currency == o.currency && c.priceType == o.priceType
  {
    hide SlotOf, PriceFor, CardFor, H, IdempotencyKey, DayText;
  }

  /** An observation names the artifact of its own record line, and that artifact's source. */
  ghost predicate FromArtifact(o: Row, a: Row) {
    o.Observation? && a.RawArtifact? && o.sourceId == a.sourceId && o.rawArtifactId == a.id
  }

  lemma ObservationArtifact(j: nat, scale: Scale)
    requires j < Count(ObservationT, scale)
    ensures ArtifactOf(j, scale) < Count(RawArtifactT, scale)
    ensures FromArtifact(RowAt(ObservationT, j, scale), RowAt(RawArtifactT, ArtifactOf(j, scale), scale))
  {
    hide FromArtifact, WindowRow, HistoryRow;
    ArtifactOfBound(j, scale);
    if j < Window(ObservationT, scale) {
      WindowObservation(j, scale);
    } else {
      HistoryObservation(j - Window(ObservationT, scale), scale);
    }
  }

  lemma WindowObservation(j: nat, scale: Scale)
    requires j < Window(ObservationT, scale)
    ensures j / RECORDS_PER_RUN < Window(RawArtifactT, scale)
    ensures FromArtifact(WindowRow(ObservationT, j, scale), WindowRow(RawArtifactT, j / RECORDS_PER_RUN, scale))
  {
    hide SlotOf, RunIdOf, PriceFor, CardFor, H, IdempotencyKey, WindowDigest, DayText;
  }

  lemma HistoryObservation(index: nat, scale: Scale)
    requires index < HISTORY_ROWS
    ensures FromArtifact(HistoryRow(ObservationT, index, scale),
                         HistoryRow(RawArtifactT, HistoryArtifact(index), scale))
  {
    hide HistoryDay, HistoryShop, HistoryCard, HistoryArtifact, H, PriceFor, HistoryDigest, IdempotencyKey;
  }

  lemma ObservationFits(j: nat, scale: Scale)
    requires scale <= MAX_SCALE && j < Count(ObservationT, scale)
    ensures Fits(Seed(scale), RowAt(ObservationT, j, scale))
  {
    hide RowAt, IdAt, Only, Fits, Seed;
    CandidateColumns(j, scale);
    RecordColumns(j, scale);
    ObservationArtifact(j, scale);
    var i := ArtifactOf(j, scale);
    var o, c := RowAt(ObservationT, j, scale), RowAt(CandidateT, j, scale);
    var e, a := RowAt(ExtractedRecordT, j, scale), RowAt(RawArtifactT, i, scale);
    OnlyLine(CandidateT, j, scale);
    OnlyLine(ExtractedRecordT, j, scale);
    OnlyLine(RawArtifactT, i, scale);
    IdOfRow(RawArtifactT, i, scale);
    IdOfRow(CandidateT, j, scale);
    IdOfRow(ExtractedRecordT, j, scale);
    var seed := Seed(scale);
    hide *;
    ObservationFitsBy(seed, o, c, e, a);
  }

  /** A review's artifact, record, attempt and candidate lines, and the columns tying them to it. */
  ghost predicate ReviewTied(v: Row, a: Row, e: Row, t: Row, c: Row) {
    && v.Review? && a.RawArtifact? && e.ExtractedRecord? && t.Attempt? && c.Candidate?
    && (v.recordId == None || v.recordId == Some(e.id))
    && (v.attemptId == None || (v.attemptId == Some(t.id) && t.result == "rejected"))
    && a.id == v.rawArtifactId && a.ingestRunId == v.ingestRunId && e.rawArtifactId == v.rawArtifactId
    && c.id == t.candidateId && c.extractedRecordId == e.id
  }

  lemma ReviewFits(j: nat, scale: Scale)
    requires scale <= MAX_SCALE && j < Count(ReviewT, scale)
    ensures Fits(Seed(scale), RowAt(ReviewT, j, scale))
  {
    hide RowAt, IdAt, Only, Fits, Seed;
    var i, record := 10 * j / RECORDS_PER_RUN, 10 * j;
    ReviewChain(j, scale);
    var v, a, e := RowAt(ReviewT, j, scale), RowAt(RawArtifactT, i, scale), RowAt(ExtractedRecordT, record, scale);
    var t, c := RowAt(AttemptT, 20 * j + 1, scale), RowAt(CandidateT, record, scale);
    OnlyLine(RawArtifactT, i, scale);
    OnlyLine(ExtractedRecordT, record, scale);
    OnlyLine(AttemptT, 20 * j + 1, scale);
    OnlyLine(CandidateT, record, scale);
    var seed := Seed(scale);
    assert PkOf(a) == Key(RawArtifactT, v.rawArtifactId) && PkOf(c) == Key(CandidateT, t.candidateId);
    hide *;
    ReviewFitsBy(seed, v, a, e, t, c);
  }

  lemma OnlyLine(t: Table, j: nat, scale: Scale)
    requires scale <= MAX_SCALE && j < Count(t, scale)
    ensures Only(Seed(scale), PkOf(RowAt(t, j, scale)), RowAt(t, j, scale))
  {
    IdOfRow(t, j, scale);
    Lookup(t, j, scale);
  }

  lemma ReviewChain(j: nat, scale: Scale)
    requires j < Count(ReviewT, scale)
    ensures 10 * j / RECORDS_PER_RUN < Window(RawArtifactT, scale) && 10 * j < Window(ExtractedRecordT, scale)
    ensures 20 * j + 1 < Window(AttemptT, scale)
    ensures var i, record := 10 * j / RECORDS_PER_RUN, 10 * j;
            ReviewTied(RowAt(ReviewT, j, scale), RowAt(RawArtifactT, i, scale),
                       RowAt(ExtractedRecordT, record, scale), RowAt(AttemptT, 20 * j + 1, scale),
                       RowAt(CandidateT, record, scale))
  {
    hide RunIdOf, SlotOf, PriceFor, CardFor, H, WindowDigest, DayText;
  }

  /** The copies of source, artifact and run agree along every chain of the seed. */
  lemma SeedCoherent(scale: Scale)
    requires scale <= MAX_SCALE
    ensures Coherent(Seed(scale))
  {
    forall r | r in Seed(scale)
      ensures Fits(Seed(scale), r)
    {
      var t, j := Line(r, scale);
      match t
      case RawArtifactT => ArtifactFits(j, scale);
      case ExtractedRecordT => RecordFits(j, scale);
      case ObservationT => ObservationFits(j, scale);
      case ReviewT => ReviewFits(j, scale);
      case _ => OtherFits(t, j, scale);
    }
  }

  lemma ArtifactFits(j: nat, scale: Scale)
    requires scale <= MAX_SCALE && j < Count(RawArtifactT, scale)
    ensures Fits(Seed(scale), RowAt(RawArtifactT, j, scale))
  {
    ArtifactColumns(j, scale);
    RunSource(j, scale);
    Lookup(IngestRunT, RunOf(j, scale), scale);
    hide Seed, RowAt, IdAt, RunOf;
  }

  lemma RecordFits(j: nat, scale: Scale)
    requires scale <= MAX_SCALE && j < Count(ExtractedRecordT, scale)
    ensures Fits(Seed(scale), RowAt(ExtractedRecordT, j, scale))
  {
    RecordColumns(j, scale);
    var a := ArtifactOf(j, scale);
    assert RowAt(ProcessingRunT, a, scale).rawArtifactId == IdAt(RawArtifactT, a, scale);
    Lookup(ProcessingRunT, a, scale);
    hide Seed, RowAt, IdAt, ArtifactOf;
  }

  lemma OtherFits(t: Table, j: nat, scale: Scale)
    requires j < Count(t, scale)
    requires t !in {RawArtifactT, ExtractedRecordT, ObservationT, ReviewT}
    ensures Fits(Seed(scale), RowAt(t, j, scale))
  {
    IdOfRow(t, j, scale);
    hide RowAt, Seed, IdAt;
  }
}

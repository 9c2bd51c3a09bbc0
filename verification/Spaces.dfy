/**
 * Why writers never collide: every row written under one writer and sequence number has its primary
 * and unique keys in a space of its own, apart from every other writer's and from the seed's
 * (the identifier scheme of workload.py and the hash of generate.py).
 */
module Spaces {
  import opened Text
  import opened Hash
  import opened Schema
  import opened Collation
  import opened Generate
  import opened Seeded
  import opened Workload

  /** Who wrote a row: a writer, at one of its sequence numbers. */
  datatype Tag = Tag(writer: nat, sequence: nat)

  /** The first sequence number at which a (source, content hash) pair can repeat. */
  const SEQUENCE_LIMIT := 49_872_897

  predicate ValidTag(t: Tag) {
    t.writer < 100 && 1 <= t.sequence < SEQUENCE_LIMIT
  }

  // ------------------------------------------------------ content hashes

  lemma HashBlocks(id: nat)
    ensures |ContentHash(id)| == 64
    ensures ContentHash(id)[..8] == Hex(8, H(id)) && ContentHash(id)[8..16] == Hex(8, H(id + 1))
  {
    hide H, Hex;
  }

  /** Two runtime artifacts have the same content hash exactly when their identifiers agree modulo 2^32. */
  lemma ContentHashCollides(m: nat, n: nat)
    ensures ContentHash(m) == ContentHash(n) <==> m % WORD == n % WORD
  {
    hide ContentHash, H, Hex;
    if m % WORD == n % WORD {
      SameContentHash(m, n);
    } else if ContentHash(m) == ContentHash(n) {
      HashBlocks(m);
      HashBlocks(n);
      Hex8Injective(H(m), H(n));
      HCollides(m, n);
    }
  }

  lemma ContentHashIsCased(id: nat)
    ensures NoCapitals(ContentHash(id))
  {
    hide H, Hex;
    HexHasNoCapitals(8, H(id));
    HexHasNoCapitals(8, H(id + 1));
    HexHasNoCapitals(8, H(id + 2));
    HexHasNoCapitals(8, H(id + 3));
    HexHasNoCapitals(8, H(id + 4));
    HexHasNoCapitals(8, H(id + 5));
    HexHasNoCapitals(8, H(id + 6));
    HexHasNoCapitals(8, H(id + 7));
  }

  lemma SameContentHash(m: nat, n: nat)
    requires m % WORD == n % WORD
    ensures ContentHash(m) == ContentHash(n)
  {
    hide H, Hex;
    SameBlock(m, n, 0);
    SameBlock(m, n, 1);
    SameBlock(m, n, 2);
    SameBlock(m, n, 3);
    SameBlock(m, n, 4);
    SameBlock(m, n, 5);
    SameBlock(m, n, 6);
    SameBlock(m, n, 7);
  }

  lemma SameBlock(m: nat, n: nat, k: nat)
    requires m % WORD == n % WORD
    ensures H(m + k) == H(n + k)
  {
    hide H;
    assert (m + k) % WORD == (n + k) % WORD;
    HCollides(m + k, n + k);
  }

  /** No runtime hash is a seed or history digest. */
  lemma RuntimeHashIsNew(id: nat, i: nat, artifact: nat, index: nat)
    ensures ContentHash(id) != WindowDigest(i) && ContentHash(id) != HistoryDigest(artifact, index)
  {
    HashBlocks(id);
    DigestLengths(i, artifact, index);
    HistoryBlocks(artifact, index);
    hide ContentHash, WindowDigest, HistoryDigest, H, Hex;
    if ContentHash(id) == HistoryDigest(artifact, index) {
      Hex8Injective(H(id), H(id + 1));
      HCollides(id, id + 1);
    }
  }

  lemma HistoryBlocks(artifact: nat, index: nat)
    ensures var s := HistoryDigest(artifact, index);
            |s| == 64 && s[..8] == Hex(8, H(artifact)) && s[8..16] == Hex(8, H(artifact))
  {
    hide H, Hex;
  }

  /** Three strides fall 64,771,072 short of seven times 2^32, and one is 1,410,065,408 more than two. */
  function Residue(a: nat, b: nat): int {
    var r := b * 1_410_065_408 - a * 64_771_072;
    if r >= 0 then r else r + WORD
  }

  lemma ResidueInRange(a: nat, b: nat)
    requires a <= 33 && b <= 2
    ensures 0 <= Residue(a, b) < WORD
    ensures exists q :: (3 * a + b) * 10_000_000_000 == Residue(a, b) + q * WORD
  {
    var q := 7 * a + 2 * b - if b * 1_410_065_408 - a * 64_771_072 >= 0 then 0 else 1;
    assert (3 * a + b) * 10_000_000_000 == Residue(a, b) + q * WORD;
  }

  lemma StrideResidue(a: nat, b: nat)
    requires a <= 33 && b <= 2
    ensures (3 * a + b) * 10_000_000_000 % WORD == Residue(a, b)
  {
    ResidueInRange(a, b);
    hide Residue;
    var q :| (3 * a + b) * 10_000_000_000 == Residue(a, b) + q * WORD;
    Remainder(Residue(a, b), q);
  }

  lemma Remainder(x: int, q: int)
    requires 0 <= x < WORD
    ensures (x + q * WORD) % WORD == x
  {
    AddMultiple(x, q);
  }

  /** Multiples of the writer stride stay away from the multiples of 2^32 ... */
  lemma StrideFar(k: nat)
    requires 1 <= k < 100
    ensures 14_898_176 <= k * 10_000_000_000 % WORD <= WORD - 14_898_176
  {
    var a, b := k / 3, k % 3;
    StrideResidue(a, b);
    assert k == 3 * a + b;
    assert b == 1 ==> a <= 21 || a >= 22;
  }

  /** ... and multiples of four of them, further away. */
  lemma FourStridesFar(k: nat)
    requires 1 <= k < 25
    ensures 49_872_896 <= k * 40_000_000_000 % WORD <= WORD - 49_872_896
  {
    var a, b := 4 * k / 3, 4 * k % 3;
    StrideResidue(a, b);
    assert 4 * k == 3 * a + b;
    assert b == 1 ==> a <= 21 || a >= 25;
  }

  lemma NotMultiple(x: int, gap: nat, e: int)
    requires gap <= x % WORD <= WORD - gap && 0 - gap < e < gap
    ensures (x + e) % WORD != 0 && (e - x) % WORD != 0
  {
    var r, q := x % WORD, x / WORD;
    AddMultiple(r + e, q);
    AddMultiple(e - r, 0 - q);
    assert x + e == (r + e) + q * WORD;
    assert e - x == (e - r) + (0 - q) * WORD;
  }

  lemma Difference(m: int, n: int)
    requires m % WORD == n % WORD
    ensures (m - n) % WORD == 0
  {
  }

  lemma StridesApart(d: int, e: int)
    requires -100 < d < 100 && -14_898_176 < e < 14_898_176 && (d * 10_000_000_000 + e) % WORD == 0
    ensures d == 0 && e == 0
  {
    if d > 0 {
      StrideFar(d);
      NotMultiple(d * 10_000_000_000, 14_898_176, e);
    } else if d < 0 {
      StrideFar(0 - d);
      NotMultiple((0 - d) * 10_000_000_000, 14_898_176, e);
    }
  }

  lemma FourStridesApart(c: int, e: int)
    requires -25 < c < 25 && -49_872_896 < e < 49_872_896 && (c * 40_000_000_000 + e) % WORD == 0
    ensures c == 0 && e == 0
  {
    if c > 0 {
      FourStridesFar(c);
      NotMultiple(c * 40_000_000_000, 49_872_896, e);
    } else if c < 0 {
      FourStridesFar(0 - c);
      NotMultiple((0 - c) * 40_000_000_000, 49_872_896, e);
    }
  }

  function ArtifactIdOf(t: Tag): nat {
    Id(RawArtifactT, t.writer, t.sequence)
  }

  function HashOf(t: Tag): string {
    ContentHash(ArtifactIdOf(t))
  }

  /**
   * As long as any two sequence numbers are less than 14,898,176 apart, the content hashes alone are
   * pairwise distinct; numbers start at 1, so up to and including number 14,898,176.
   */
  lemma ContentHashesDistinct(t: Tag, u: Tag)
    requires t.writer < 100 && u.writer < 100 && -14_898_176 < t.sequence - u.sequence < 14_898_176
    ensures HashOf(t) == HashOf(u) <==> t == u
  {
    hide ContentHash, H;
    var m, n := ArtifactIdOf(t), ArtifactIdOf(u);
    ContentHashCollides(m, n);
    if m % WORD == n % WORD {
      Difference(m, n);
      StridesApart(t.writer - u.writer, t.sequence - u.sequence);
    }
  }

  /** At that distance from number 1 they repeat for the first time, though under different sources. */
  lemma ContentHashRepeats()
    ensures HashOf(Tag(67, 14_898_177)) == HashOf(Tag(0, 1))
    ensures SourceOf(Tag(67, 14_898_177)) != SourceOf(Tag(0, 1))
  {
    hide ContentHash, H;
    ContentHashCollides(Id(RawArtifactT, 67, 14_898_177), Id(RawArtifactT, 0, 1));
  }

  function SourceOf(t: Tag): nat {
    (t.writer + t.sequence) % 4 + 1
  }

  /** What the UNIQUE constraint needs: within the limit no source sees one content hash twice. */
  lemma SourceHashesDistinct(t: Tag, u: Tag)
    requires ValidTag(t) && ValidTag(u)
    ensures SourceOf(t) == SourceOf(u) && HashOf(t) == HashOf(u) <==> t == u
  {
    hide ContentHash, H, Id, SourceOf, ValidTag;
    var m, n := ArtifactIdOf(t), ArtifactIdOf(u);
    var d, e := t.writer - u.writer, t.sequence - u.sequence;
    ContentHashCollides(m, n);
    if m % WORD == n % WORD && SourceOf(t) == SourceOf(u) {
      IdSteps(t, u);
      SameSource(t, u);
      TagSteps(t, u);
      SourceStepsApart(d, e, m, n);
    }
  }

  lemma IdSteps(t: Tag, u: Tag)
    ensures ArtifactIdOf(t) - ArtifactIdOf(u)
         == (t.writer - u.writer) * 10_000_000_000 + (t.sequence - u.sequence)
  {
  }

  lemma TagSteps(t: Tag, u: Tag)
    requires ValidTag(t) && ValidTag(u)
    ensures -100 < t.writer - u.writer < 100 && -49_872_896 < t.sequence - u.sequence < 49_872_896
  {
  }

  lemma SourceStepsApart(d: int, e: int, m: int, n: int)
    requires -100 < d < 100 && -49_872_896 < e < 49_872_896 && (d + e) % 4 == 0
    requires m % WORD == n % WORD && m - n == d * 10_000_000_000 + e
    ensures d == 0 && e == 0
  {
    Difference(m, n);
    DivisibleByFour(d, e, m - n);
    var c := Quarter(d, e);
    FourStridesApart(c, e);
  }

  lemma Quarter(d: int, e: int) returns (c: int)
    requires e % 4 == 0 && (d + e) % 4 == 0
    ensures d == 4 * c
  {
    c := d / 4;
  }

  lemma SameSource(t: Tag, u: Tag)
    requires SourceOf(t) == SourceOf(u)
    ensures ((t.writer - u.writer) + (t.sequence - u.sequence)) % 4 == 0
  {
  }

  /** Source and content hash agree, so both the sum and the difference of the steps are multiples of four. */
  lemma DivisibleByFour(d: int, e: int, x: int)
    requires x == d * 10_000_000_000 + e && x % WORD == 0
    ensures e % 4 == 0
  {
    var q := x / WORD;
    assert e == 4 * (q * 1_073_741_824 - d * 2_500_000_000);
  }

  /** At the limit the constraint does fail: two writers' artifacts share source and content hash. */
  lemma SequenceLimitIsExact()
    ensures var a := ArtifactRow(Order(64, 1, 0, 1, 0));
            var b := ArtifactRow(Order(0, SEQUENCE_LIMIT, 0, 1, 0));
            PkOf(a) != PkOf(b) && forall engine: Engine :: Clash(engine, a, b)
  {
    hide ContentHash, H;
    ContentHashCollides(Id(RawArtifactT, 64, 1), Id(RawArtifactT, 0, SEQUENCE_LIMIT));
  }

  // -------------------------------------------------------------- spaces

  /** `id` is the `t`-identifier of one of this tag's records (or `width` of them per record). */
  predicate InRange(t: Table, tag: Tag, width: nat, id: int) {
    var low := Id(t, tag.writer, tag.sequence * RECORDS_PER_RUN * width);
    low <= id < low + RECORDS_PER_RUN * width
  }

  /** The keys and texts of a row written under a tag. */
  ghost predicate Owns(tag: Tag, r: Row) {
    Cased(r) && OwnsKeys(tag, r)
  }

  /** The keys of a row written under a tag. Reparsing writes no runs, artifacts or reviews. */
  ghost predicate OwnsKeys(tag: Tag, r: Row) {
    var w, s := tag.writer, tag.sequence;
    match r
    case IngestRun(id, _, _) => id == Id(IngestRunT, w, s) && w != REPARSE_WRITER
    case RawArtifact(id, _, source, hash, _) =>
      id == ArtifactIdOf(tag) && source == SourceOf(tag) && hash == HashOf(tag)
    case ProcessingRun(id, artifact, _, version, _, _) =>
      id == Id(ProcessingRunT, w, s) &&
      if w == REPARSE_WRITER then artifact == s && version == "1.1.0" else artifact == Id(RawArtifactT, w, s)
    case ExtractedRecord(id, _, _) => InRange(ExtractedRecordT, tag, 1, id)
    case Candidate(id, record, _, _, _, _, _, _) =>
      InRange(CandidateT, tag, 1, id) && InRange(ExtractedRecordT, tag, 1, record)
    case Attempt(id, _, _, _, _) => InRange(AttemptT, tag, 2, id)
    case Observation(id, _, _, _, _, _, _, _, _, _, _, key) =>
      InRange(ObservationT, tag, 1, id) &&
      exists k: KeyFields :: k.BarFree() && k.artifact == ArtifactIdOf(tag) && key == IdempotencyKey(k)
    case Review(id, _, _, _, _, _, _, _, _) => InRange(ReviewT, tag, 1, id)
    case _ => false
  }

  /** Identifiers of the seed lie below every runtime range. */
  const RUNTIME_BASE := 1_000_000_000_000

  /** The keys and texts of a seed row. */
  ghost predicate SeedLike(r: Row) {
    Cased(r) && SeedKeys(r)
  }

  ghost predicate SeedKeys(r: Row) {
    match r
    case IngestRun(id, _, _) => id < RUNTIME_BASE
    case RawArtifact(id, _, _, hash, _) => id < RUNTIME_BASE && forall n: nat :: hash != ContentHash(n)
    case ProcessingRun(id, artifact, _, version, _, _) =>
      id < RUNTIME_BASE && artifact < RUNTIME_BASE && version == "1.0.0"
    case ExtractedRecord(id, _, _) => id < RUNTIME_BASE
    case Candidate(id, record, _, _, _, _, _, _) => id < RUNTIME_BASE && record < RUNTIME_BASE
    case Attempt(id, _, _, _, _) => id < RUNTIME_BASE
    case Observation(id, _, _, _, _, _, _, _, _, _, _, key) =>
      id < RUNTIME_BASE &&
      exists k: KeyFields :: k.BarFree() && k.artifact < RUNTIME_BASE && key == IdempotencyKey(k)
    case Review(id, _, _, _, _, _, _, _, _) => id < RUNTIME_BASE
    case _ => true
  }

  lemma IdApart(t: Table, a: Tag, b: Tag)
    requires ValidTag(a) && ValidTag(b) && Id(t, a.writer, a.sequence) == Id(t, b.writer, b.sequence)
    ensures a == b
  {
  }

  lemma RangesApart(t: Table, a: Tag, b: Tag, width: nat, id: int)
    requires ValidTag(a) && ValidTag(b) && 1 <= width <= 2
    requires InRange(t, a, width, id) && InRange(t, b, width, id)
    ensures a == b
  {
    if width == 1 {
      SinglesApart(a, b, id - IdBase(t));
    } else {
      PairsApart(a, b, id - IdBase(t));
    }
  }

  lemma SinglesApart(a: Tag, b: Tag, x: int)
    requires ValidTag(a) && ValidTag(b)
    requires 0 <= x - (a.writer * WRITER_STRIDE + a.sequence * 60) < 60
    requires 0 <= x - (b.writer * WRITER_STRIDE + b.sequence * 60) < 60
    ensures a == b
  {
    assert a.writer == b.writer;
  }

  lemma PairsApart(a: Tag, b: Tag, x: int)
    requires ValidTag(a) && ValidTag(b)
    requires 0 <= x - (a.writer * WRITER_STRIDE + a.sequence * 120) < 120
    requires 0 <= x - (b.writer * WRITER_STRIDE + b.sequence * 120) < 120
    ensures a == b
  {
    assert a.writer == b.writer;
  }

  /** Rows written under different tags never clash. */
  lemma TagsApart(engine: Engine, a: Tag, r: Row, b: Tag, q: Row)
    requires Discerning(engine) && ValidTag(a) && ValidTag(b) && Owns(a, r) && Owns(b, q) && Clash(engine, r, q)
    ensures a == b
  {
    hide OwnsKeys, Cased;
    CasedClash(engine, r, q);
    if PkOf(r) == PkOf(q) {
      PkApart(a, r, b, q);
    } else {
      UniqueApart(a, r, b, q);
    }
  }

  lemma PkApart(a: Tag, r: Row, b: Tag, q: Row)
    requires ValidTag(a) && ValidTag(b) && OwnsKeys(a, r) && OwnsKeys(b, q) && PkOf(r) == PkOf(q)
    ensures a == b
  {
    match r
    case IngestRun(_, _, _) => IdApart(IngestRunT, a, b);
    case RawArtifact(_, _, _, _, _) => IdApart(RawArtifactT, a, b);
    case ProcessingRun(_, _, _, _, _, _) => IdApart(ProcessingRunT, a, b);
    case Attempt(_, _, _, _, _) => RangesApart(AttemptT, a, b, 2, r.id);
    case ExtractedRecord(_, _, _) => RangesApart(ExtractedRecordT, a, b, 1, r.id);
    case Candidate(_, _, _, _, _, _, _, _) => RangesApart(CandidateT, a, b, 1, r.id);
    case Observation(_, _, _, _, _, _, _, _, _, _, _, _) => RangesApart(ObservationT, a, b, 1, r.id);
    case Review(_, _, _, _, _, _, _, _, _) => RangesApart(ReviewT, a, b, 1, r.id);
    case _ =>
  }

  lemma UniqueApart(a: Tag, r: Row, b: Tag, q: Row)
    requires ValidTag(a) && ValidTag(b) && OwnsKeys(a, r) && OwnsKeys(b, q)
    requires UniqueOf(Postgres, r) == UniqueOf(Postgres, q) != NoUnique
    ensures a == b
  {
    match r
    case RawArtifact(_, _, _, _, _) => SourceHashesDistinct(a, b);
    case ProcessingRun(_, _, _, _, _, _) => IdApart(RawArtifactT, a, b);
    case Candidate(_, record, _, _, _, _, _, _) => RangesApart(ExtractedRecordT, a, b, 1, record);
    case Observation(_, _, _, _, _, _, _, _, _, _, _, key) =>
      var k: KeyFields :| k.BarFree() && k.artifact == ArtifactIdOf(a) && key == IdempotencyKey(k);
      var l: KeyFields :| l.BarFree() && l.artifact == ArtifactIdOf(b) && key == IdempotencyKey(l);
      KeyInjective(k, l);
      IdApart(RawArtifactT, a, b);
  }

  /** No row written under a tag clashes with the seed. */
  lemma SeedApart(engine: Engine, a: Tag, r: Row, q: Row)
    requires Discerning(engine) && ValidTag(a) && Owns(a, r) && SeedLike(q)
    ensures !Clash(engine, r, q)
  {
    hide OwnsKeys, SeedKeys, Cased;
    KeysApart(a, r, q);
    if Clash(engine, r, q) {
      CasedClash(engine, r, q);
    }
  }

  lemma KeysApart(a: Tag, r: Row, q: Row)
    requires ValidTag(a) && OwnsKeys(a, r) && SeedKeys(q)
    ensures !Clash(Postgres, r, q)
  {
    if r.Observation? && q.Observation? && r.key == q.key {
      var k: KeyFields :| k.BarFree() && k.artifact == ArtifactIdOf(a) && r.key == IdempotencyKey(k);
      var l: KeyFields :| l.BarFree() && l.artifact < RUNTIME_BASE && q.key == IdempotencyKey(l);
      KeyInjective(k, l);
    }
  }

  /** Every line of the seed has its keys where `SeedLike` says. */
  lemma SeedIsSeedLike(scale: Scale)
    requires scale <= MAX_SCALE
    ensures forall r :: r in Seed(scale) ==> SeedLike(r)
  {
    forall r | r in Seed(scale)
      ensures SeedLike(r)
    {
      var t, j := Line(r, scale);
      LineIsSeedLike(t, j, scale);
    }
  }

  lemma LineIsSeedLike(t: Table, j: nat, scale: Scale)
    requires scale <= MAX_SCALE && j < Count(t, scale)
    ensures SeedLike(RowAt(t, j, scale))
  {
    LineIsCased(t, j, scale);
    LineHasSeedKeys(t, j, scale);
    hide RowAt, Cased, SeedKeys;
  }

  lemma LineHasSeedKeys(t: Table, j: nat, scale: Scale)
    requires scale <= MAX_SCALE && j < Count(t, scale)
    ensures SeedKeys(RowAt(t, j, scale))
  {
    IdOfRow(t, j, scale);
    match t
    case RawArtifactT => ArtifactHasSeedKeys(j, scale);
    case ObservationT =>
      KeyOfObservation(j, scale);
      assert KeyAt(j, scale).artifact < RUNTIME_BASE;
      hide KeyAt, RowAt, IdempotencyKey;
    case _ =>
  }

  lemma ArtifactHasSeedKeys(j: nat, scale: Scale)
    requires scale <= MAX_SCALE && j < Count(RawArtifactT, scale)
    ensures SeedKeys(RowAt(RawArtifactT, j, scale))
  {
    hide ContentHash, WindowDigest, HistoryDigest, SlotOf, RunIdOf, H;
    IdOfRow(RawArtifactT, j, scale);
    var hash := RowAt(RawArtifactT, j, scale).contentHash;
    var w := Window(RawArtifactT, scale);
    forall n: nat
      ensures hash != ContentHash(n)
    {
      if j < w {
        RuntimeHashIsNew(n, j, 0, 0);
      } else {
        RuntimeHashIsNew(n, 0, HISTORY_ID_OFFSET + (j - w) + 1, j - w);
      }
    }
  }
}

/**
 * An observation stands for a card because one identity resolution attempt of its candidate was
 * confirmed (generate.py, workload.py, ingest.py). No constraint says so; the ledger keeps it.
 */
module Identity {
  import opened Text
  import opened Hash
  import opened Schema
  import opened Collation
  import opened Generate
  import opened Seeded
  import opened Workload
  import opened Spaces
  import opened Jobs
  import opened Ledger

  /** A confirmed attempt of this candidate. */
  predicate Confirms(a: Row, candidate: int) {
    a.Attempt? && a.candidateId == candidate && a.result == "confirmed"
  }

  /** `a` is the one confirmed attempt of the observation's candidate, and names its card. */
  ghost predicate ConfirmedBy(db: set<Row>, o: Row, a: Row)
    requires o.Observation?
  {
    && a in db && Confirms(a, o.candidateId) && a.matchedCard == Some(o.cardId)
    && forall b :: b in db && Confirms(b, o.candidateId) ==> b == a
  }

  // ---------------------------------------------------------- the seed

  /** Of the two attempts of a seed candidate the first is confirmed, and for the observation's card. */
  lemma SeedAttempt(j: nat, scale: Scale)
    requires j < Count(AttemptT, scale)
    ensures j / 2 < Count(ObservationT, scale) && j / 2 < Count(CandidateT, scale)
    ensures var a, o := RowAt(AttemptT, j, scale), RowAt(ObservationT, j / 2, scale);
            && a.Attempt? && a.candidateId == IdAt(CandidateT, j / 2, scale)
            && (a.result == "confirmed" <==> j % 2 == 0)
            && o.Observation? && o.candidateId == IdAt(CandidateT, j / 2, scale)
            && (j % 2 == 0 ==> a.matchedCard == Some(o.cardId))
  {
    hide H, PriceFor, SourceOfRun, IdempotencyKey, DayText, DayOf, OffsetOf, Condition, PriceType, HistoryArtifact,
      HistoryKey, Score;
    HistoryHalves(j, scale);
  }

  lemma HistoryHalves(j: nat, scale: Scale)
    ensures j >= Window(AttemptT, scale) ==>
              j / 2 - Window(CandidateT, scale) == (j - Window(AttemptT, scale)) / 2
              && (j - Window(AttemptT, scale)) % 2 == j % 2
  {
  }

  lemma SeedIdBelow(t: Table, j: nat, scale: Scale)
    requires scale <= MAX_SCALE && j < Count(t, scale)
    ensures IdAt(t, j, scale) < RUNTIME_BASE
  {
  }

  // ---------------------------------------------------------- the jobs

  lemma JobAttempt(job: Job, p: Place, scale: Scale)
    requires Valid(job, scale) && InJob(job, p) && p.table == AttemptT
    ensures var a := RowIn(job, p, scale);
            a.Attempt? && InRange(CandidateT, TagOf(job), 1, a.candidateId)
  {
    hide H, InRange, ObservationFields;
    match job
    case Ingest(o) => CounterInRange(CandidateT, o, p.index / 2, TagOf(job));
    case Reparse(artifact) => CounterInRange(CandidateT, ReparseOrder(artifact), p.index, TagOf(job));
  }

  lemma BatchAttempt(o: Order, k: nat, i: nat)
    ensures var a, v := AttemptRow(o, k), ObservationRow(o, i);
            && (Confirms(a, v.candidateId) <==> k == 2 * i)
            && (k == 2 * i ==> a.matchedCard == Some(v.cardId))
            && v.candidateId == o.CandidateId(i)
  {
    hide H, PriceFor, IdempotencyKey, ObservationKey;
  }

  /** A candidate identifier belongs to the seed or to one tag. */
  lemma CandidateHome(a: Tag, b: Tag, id: int)
    requires ValidTag(a) && InRange(CandidateT, a, 1, id)
    ensures id >= RUNTIME_BASE
    ensures ValidTag(b) && InRange(CandidateT, b, 1, id) ==> a == b
  {
    if ValidTag(b) && InRange(CandidateT, b, 1, id) {
      RangesApart(CandidateT, a, b, 1, id);
    }
  }

  lemma AttemptIn(job: Job, a: Row, scale: Scale) returns (k: nat)
    requires a in RowsOf(job, Size(job), scale) && a.Attempt?
    ensures InJob(job, Place(AttemptT, k)) && a == RowIn(job, Place(AttemptT, k), scale)
  {
    hide RowIn, PlaceAt, Size, Kept, InJob;
    var j: nat :| j < Size(job) && Kept(job, PlaceAt(job, j)) && a == RowIn(job, PlaceAt(job, j), scale);
    RowTable(job, PlaceAt(job, j), scale);
    k := PlaceAt(job, j).index;
    assert PlaceAt(job, j) == Place(AttemptT, k);
  }

  lemma ObservationIn(job: Job, o: Row, scale: Scale) returns (i: nat)
    requires o in RowsOf(job, Size(job), scale) && o.Observation?
    ensures job.Ingest? && i < job.order.rows && o == ObservationRow(job.order, i)
  {
    hide PlaceAt, Size, BatchRow, ReparseRow;
    var j: nat :| j < Size(job) && Kept(job, PlaceAt(job, j)) && o == RowIn(job, PlaceAt(job, j), scale);
    RowTable(job, PlaceAt(job, j), scale);
    i := PlaceAt(job, j).index;
    ObservationPlace(job, i, scale);
  }

  lemma ObservationPlace(job: Job, i: nat, scale: Scale)
    requires InJob(job, Place(ObservationT, i)) && Kept(job, Place(ObservationT, i))
    ensures job.Ingest? && i < job.order.rows
    ensures RowIn(job, Place(ObservationT, i), scale) == ObservationRow(job.order, i)
  {
    hide ObservationRow;
  }

  // ---------------------------------------------------------- together

  /** Where a stored attempt comes from: the seed, or the batch with its candidate's tag. */
  lemma AttemptHome(db: set<Row>, log: map<Tag, Job>, a: Row, scale: Scale)
    requires Quiet(db, log, scale) && a in db && a.Attempt?
    ensures (a in Seed(scale) && a.candidateId < RUNTIME_BASE)
            || exists t :: t in log && a in RowsOf(log[t], Size(log[t]), scale)
                           && InRange(CandidateT, t, 1, a.candidateId)
  {
    hide Seed, RowsOf, InRange, Size, RowAt, IdAt, RowIn;
    if a in Seed(scale) {
      var t, j := Line(a, scale);
      IdOfRow(t, j, scale);
      SeedAttempt(j, scale);
      SeedIdBelow(CandidateT, j / 2, scale);
    } else {
      var t :| t in log && a in RowsOf(log[t], Size(log[t]), scale);
      var k := AttemptIn(log[t], a, scale);
      JobAttempt(log[t], Place(AttemptT, k), scale);
    }
  }

  lemma SeedObservationConfirmed(db: set<Row>, log: map<Tag, Job>, o: Row, scale: Scale) returns (a: Row)
    requires Quiet(db, log, scale) && o in Seed(scale) && o.Observation?
    ensures ConfirmedBy(db, o, a)
  {
    hide Seed, RowsOf, InRange, Size, RowAt, IdAt, RowIn, LogRows;
    var t, i := Line(o, scale);
    IdOfRow(t, i, scale);
    SeedAttempt(2 * i, scale);
    a := RowAt(AttemptT, 2 * i, scale);
    InSeed(AttemptT, 2 * i, scale);
    SeedIdBelow(CandidateT, i, scale);
    forall b | b in db && Confirms(b, o.candidateId)
      ensures b == a
    {
      AttemptHome(db, log, b, scale);
      if b in Seed(scale) && b.candidateId < RUNTIME_BASE {
        SameSeedAttempt(b, i, scale);
      } else {
        var u :| u in log && InRange(CandidateT, u, 1, b.candidateId);
        ValidTags(log[u], scale);
        CandidateHome(u, u, b.candidateId);
      }
    }
  }

  lemma SameSeedAttempt(b: Row, i: nat, scale: Scale)
    requires scale <= MAX_SCALE && b in Seed(scale) && i < Count(CandidateT, scale) && 2 * i < Count(AttemptT, scale)
    requires Confirms(b, IdAt(CandidateT, i, scale))
    ensures b == RowAt(AttemptT, 2 * i, scale)
  {
    hide Seed, RowAt, IdAt;
    var t, k := Line(b, scale);
    IdOfRow(t, k, scale);
    SeedAttempt(k, scale);
    IdInjective(CandidateT, k / 2, i, scale);
  }

  lemma BatchObservationConfirmed(db: set<Row>, log: map<Tag, Job>, t: Tag, o: Row, scale: Scale) returns (a: Row)
    requires Quiet(db, log, scale) && t in log && o in RowsOf(log[t], Size(log[t]), scale) && o.Observation?
    ensures ConfirmedBy(db, o, a)
  {
    hide Seed, RowsOf, InRange, Size, RowAt, IdAt, RowIn, ObservationRow, AttemptRow;
    var job := log[t];
    var i := ObservationIn(job, o, scale);
    a := AttemptRow(job.order, 2 * i);
    BatchAttempt(job.order, 2 * i, i);
    AttemptStored(job, 2 * i, scale);
    CounterInRange(CandidateT, job.order, i, t);
    ValidTags(job, scale);
    forall b | b in db && Confirms(b, o.candidateId)
      ensures b == a
    {
      AttemptHome(db, log, b, scale);
      CandidateHome(t, t, b.candidateId);
      var u :| u in log && b in RowsOf(log[u], Size(log[u]), scale) && InRange(CandidateT, u, 1, b.candidateId);
      ValidTags(log[u], scale);
      CandidateHome(t, u, b.candidateId);
      var k := AttemptIn(job, b, scale);
      AttemptPlace(job, k, scale);
      BatchAttempt(job.order, k, i);
    }
  }

  lemma AttemptPlace(job: Job, k: nat, scale: Scale)
    requires job.Ingest? && InJob(job, Place(AttemptT, k))
    ensures RowIn(job, Place(AttemptT, k), scale) == AttemptRow(job.order, k)
  {
    hide AttemptRow;
  }

  lemma AttemptStored(job: Job, k: nat, scale: Scale)
    requires job.Ingest? && k < 2 * job.order.rows
    ensures AttemptRow(job.order, k) in RowsOf(job, Size(job), scale)
  {
    hide AttemptRow, Size;
    var p := Place(AttemptT, k);
    assert PlaceAt(job, Position(job, p)) == p;
  }

  /**
   * In every reachable state a stored observation's candidate has exactly one confirmed attempt,
   * and it names the observation's card: neither the seed, nor later batches, nor reparsing adds
   * another.
   */
  lemma EveryObservationIsConfirmed(ms: seq<Move>, engine: Engine, scale: Scale, o: Row)
    requires Discerning(engine) && scale <= MAX_SCALE && o.Observation?
    ensures var db := After(ms, engine, scale).store.committed;
            o in db ==> exists a :: ConfirmedBy(db, o, a)
  {
    hide Sound, After, Seed, RowsOf, Size, ConfirmedBy;
    AfterIsSound(ms, engine, scale);
    var s := After(ms, engine, scale);
    SoundIsQuiet(s, scale);
    if o in Seed(scale) {
      var a := SeedObservationConfirmed(s.store.committed, s.log, o, scale);
    } else if o in s.store.committed {
      var t :| t in s.log && o in RowsOf(s.log[t], Size(s.log[t]), scale);
      var a := BatchObservationConfirmed(s.store.committed, s.log, t, o, scale);
    }
  }
}

/**
 * Tracing an observation back to the source it came from (`_TRACE` in queries.py). The source,
 * artifact and run are stored again along the chain; nothing in the schema makes the copies agree,
 * so agreement is stated here and proved of everything that is ever written.
 */
module Trace {
  import opened Text
  import opened Schema

  /** The columns `r` repeats agree with the rows its references lead to. */
  ghost predicate Fits(db: set<Row>, r: Row) {
    match r
    case RawArtifact(_, run, source, _, _) =>
      forall g :: g in db && g.IngestRun? && g.id == run ==> g.sourceId == source
    case ExtractedRecord(_, run, artifact) =>
      forall p :: p in db && p.ProcessingRun? && p.id == run ==> p.rawArtifactId == artifact
    case Observation(_, candidate, card, shop, source, artifact, amount, currency, priceType, _, _, _) =>
      && (forall a :: a in db && a.RawArtifact? && a.id == artifact ==> a.sourceId == source)
      && (forall c :: c in db && c.Candidate? && c.id == candidate ==>
            c.sourceId == source && c.shopId == shop
            && c.amount == amount && c.currency == currency && c.priceType == priceType
            && forall e :: e in db && e.ExtractedRecord? && e.id == c.extractedRecordId ==>
                 e.rawArtifactId == artifact)
    case Review(_, run, artifact, record, attempt, _, _, _, _) =>
      && (forall a :: a in db && a.RawArtifact? && a.id == artifact ==> a.ingestRunId == run)
      && (forall e :: e in db && e.ExtractedRecord? && record == Some(e.id) ==> e.rawArtifactId == artifact)
      && (forall t :: t in db && t.Attempt? && attempt == Some(t.id) ==>
            t.result == "rejected" &&
            forall c :: c in db && c.Candidate? && c.id == t.candidateId ==>
              forall e :: e in db && e.ExtractedRecord? && e.id == c.extractedRecordId ==>
                e.rawArtifactId == artifact)
    case _ => true
  }

  ghost predicate Coherent(db: set<Row>) {
    forall r :: r in db ==> Fits(db, r)
  }

  lemma FitsSubset(a: set<Row>, b: set<Row>, r: Row)
    requires a <= b && Fits(b, r)
    ensures Fits(a, r)
  {
  }

  lemma CoherentSubset(a: set<Row>, b: set<Row>)
    requires a <= b && Coherent(b)
    ensures Coherent(a)
  {
    forall r | r in a
      ensures Fits(a, r)
    {
      FitsSubset(a, b, r);
    }
  }

  /** A row nothing stored refers to cannot disturb what is stored. */
  lemma CoherentAdd(db: set<Row>, row: Row)
    requires Coherent(db) && Closed(db) && !Has(db, PkOf(row)) && Fits(db, row)
    ensures Coherent(db + {row})
  {
    forall r | r in db + {row}
      ensures Fits(db + {row}, r)
    {
      FitsGrows(db, row, r);
    }
  }

  lemma FitsGrows(db: set<Row>, row: Row, r: Row)
    requires Closed(db) && !Has(db, PkOf(row)) && Fits(db, r) && (r in db || r == row)
    ensures Fits(db + {row}, r)
  {
    NotReferred(db, row);
    if r in db {
      StillFits(db, row, r);
    } else {
      FitsBesideItself(db, row);
    }
  }

  lemma StillFits(db: set<Row>, row: Row, r: Row)
    requires r in db && Fits(db, r) && forall q :: q in db ==> PkOf(row) !in Refs(q)
    ensures Fits(db + {row}, r)
  {
    if r.Review? {
      ReviewStillFits(db, row, r);
    }
  }

  lemma ReviewStillFits(db: set<Row>, row: Row, r: Row)
    requires r in db && r.Review? && Fits(db, r) && forall q :: q in db ==> PkOf(row) !in Refs(q)
    ensures Fits(db + {row}, r)
  {
    assert forall t :: t in db + {row} && t.Attempt? && r.attemptId == Some(t.id) ==> t in db;
    assert forall t, c :: t in db && t.Attempt? && c in db + {row} && c.Candidate? && c.id == t.candidateId ==> c in db;
    assert forall c, e ::
        c in db && c.Candidate? && e in db + {row} && e.ExtractedRecord? && e.id == c.extractedRecordId ==> e in db;
  }

  lemma FitsBesideItself(db: set<Row>, row: Row)
    requires Fits(db, row) && forall q :: q in db ==> PkOf(row) !in Refs(q)
    ensures Fits(db + {row}, row)
  {
  }

  lemma NotReferred(db: set<Row>, row: Row)
    requires Closed(db) && !Has(db, PkOf(row))
    ensures forall q :: q in db ==> PkOf(row) !in Refs(q)
  {
  }

  /** If a row has this primary key at all, it is `r`. */
  ghost predicate Only(db: set<Row>, k: Key, r: Row) {
    forall q :: q in db && PkOf(q) == k ==> q == r
  }

  lemma ObservationFitsBy(db: set<Row>, o: Row, c: Row, e: Row, a: Row)
    requires o.Observation? && c.Candidate? && e.ExtractedRecord? && a.RawArtifact?
    requires Only(db, Key(CandidateT, o.candidateId), c)
    requires Only(db, Key(ExtractedRecordT, c.extractedRecordId), e)
    requires Only(db, Key(RawArtifactT, o.rawArtifactId), a)
    requires a.sourceId == o.sourceId && e.rawArtifactId == o.rawArtifactId
    requires c.sourceId == o.sourceId && c.shopId == o.shopId
    requires c.amount == o.amount && c.currency == o.currency && c.priceType == o.priceType
    ensures Fits(db, o)
  {
    assert forall q :: q in db && q.Candidate? && q.id == o.candidateId ==> PkOf(q) == Key(CandidateT, o.candidateId);
    assert forall q :: q in db && q.ExtractedRecord? && q.id == c.extractedRecordId ==>
        PkOf(q) == Key(ExtractedRecordT, c.extractedRecordId);
    assert forall q :: q in db && q.RawArtifact? && q.id == o.rawArtifactId ==>
        PkOf(q) == Key(RawArtifactT, o.rawArtifactId);
  }

  lemma ReviewFitsBy(db: set<Row>, v: Row, a: Row, e: Row, t: Row, c: Row)
    requires v.Review? && a.RawArtifact? && e.ExtractedRecord? && t.Attempt? && c.Candidate?
    requires v.recordId == None || v.recordId == Some(e.id)
    requires v.attemptId == None || (v.attemptId == Some(t.id) && t.result == "rejected")
    requires Only(db, Key(RawArtifactT, v.rawArtifactId), a) && a.ingestRunId == v.ingestRunId
    requires Only(db, Key(ExtractedRecordT, e.id), e) && e.rawArtifactId == v.rawArtifactId
    requires Only(db, Key(AttemptT, t.id), t)
    requires Only(db, Key(CandidateT, t.candidateId), c) && c.extractedRecordId == e.id
    ensures Fits(db, v)
  {
    assert forall q :: q in db && q.RawArtifact? && q.id == v.rawArtifactId ==>
        PkOf(q) == Key(RawArtifactT, v.rawArtifactId);
    assert forall q :: q in db && q.ExtractedRecord? && q.id == e.id ==> PkOf(q) == Key(ExtractedRecordT, e.id);
    assert forall q :: q in db && q.Attempt? && q.id == t.id ==> PkOf(q) == Key(AttemptT, t.id);
    assert forall q :: q in db && q.Candidate? && q.id == t.candidateId ==>
        PkOf(q) == Key(CandidateT, t.candidateId);
  }

  /** One line of the trace join. */
  datatype Line = Line(candidate: Row, record: Row, run: Row, artifact: Row, ingest: Row, source: Row)

  ghost predicate Joins(db: set<Row>, o: Row, l: Line)
    requires o.Observation?
  {
    && l.candidate in db && l.candidate.Candidate? && l.candidate.id == o.candidateId
    && l.record in db && l.record.ExtractedRecord? && l.record.id == l.candidate.extractedRecordId
    && l.run in db && l.run.ProcessingRun? && l.run.id == l.record.processingRunId
    && l.artifact in db && l.artifact.RawArtifact? && l.artifact.id == l.run.rawArtifactId
    && l.ingest in db && l.ingest.IngestRun? && l.ingest.id == l.artifact.ingestRunId
    && l.source in db && l.source.Source? && l.source.id == l.artifact.sourceId
  }

  lemma Find(db: set<Row>, r: Row, k: Key) returns (q: Row)
    requires Closed(db) && r in db && k in Refs(r)
    ensures q in db && PkOf(q) == k
  {
    assert Has(db, k);
    q :| q in db && PkOf(q) == k;
  }

  lemma SameRow(engine: Engine, db: set<Row>, q: Row, p: Row)
    requires Unique(engine, db) && q in db && p in db && PkOf(q) == PkOf(p)
    ensures q == p
  {
    assert Clash(engine, q, p);
  }

  /** The line leads to the artifact, run, source and shop the observation itself names, and to its price. */
  predicate EndsAtItsOwn(l: Line, o: Row)
    requires o.Observation?
  {
    && l.candidate.Candidate? && l.record.ExtractedRecord? && l.ingest.IngestRun?
    && l.artifact.id == o.rawArtifactId && l.record.rawArtifactId == o.rawArtifactId
    && l.source.id == o.sourceId && l.ingest.sourceId == o.sourceId
    && l.candidate.shopId == o.shopId && l.candidate.priceType == o.priceType
    && l.candidate.amount == o.amount && l.candidate.currency == o.currency
  }

  /**
   * In a consistent and coherent database the trace of a stored observation is exactly one line,
   * and it ends at the artifact, the run and the source the observation itself names.
   */
  lemma TraceIsOneLine(engine: Engine, db: set<Row>, o: Row) returns (l: Line)
    requires Consistent(engine, db) && Coherent(db) && o in db && o.Observation?
    ensures Joins(db, o, l) && forall m :: Joins(db, o, m) ==> m == l
    ensures EndsAtItsOwn(l, o)
  {
    var c := Find(db, o, Key(CandidateT, o.candidateId));
    var e := Find(db, c, Key(ExtractedRecordT, c.extractedRecordId));
    var p := Find(db, e, Key(ProcessingRunT, e.processingRunId));
    var a := Find(db, p, Key(RawArtifactT, p.rawArtifactId));
    var g := Find(db, a, Key(IngestRunT, a.ingestRunId));
    var s := Find(db, a, Key(SourceT, a.sourceId));
    l := Line(c, e, p, a, g, s);
    assert Fits(db, o) && Fits(db, e) && Fits(db, a);
    forall m | Joins(db, o, m)
      ensures m == l
    {
      SameRow(engine, db, m.candidate, c);
      SameRow(engine, db, m.record, e);
      SameRow(engine, db, m.run, p);
      SameRow(engine, db, m.artifact, a);
      SameRow(engine, db, m.ingest, g);
      SameRow(engine, db, m.source, s);
    }
  }
}

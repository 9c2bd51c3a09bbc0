/**
 * One connection and its transactions: `insert_observations` and `write_batch` (workload.py), the
 * loops of `daily_ingest` and `reparse` (ingest.py) and the canary cases of `check_constraints`
 * (integrity.py), as methods over the rows the connection has committed and the rows it sees.
 */
module Writer {
  import opened Schema
  import opened Store
  import opened Append
  import opened Workload

  /** A row count, or the exception raised. */
  datatype Reply = Count(n: int) | Error(reason: Reason)

  /** `insert_observations`: which form runs, and what it leaves. */
  function ObservationForm(engine: Engine, db: set<Row>, rows: seq<Row>, idempotent: bool, kept: nat): Result
    requires kept <= |rows|
  {
    if engine.Postgres? || !idempotent then Executed(engine, db, 0, rows, idempotent)
    else MariaForm(engine, db, rows, kept)
  }

  /** The six tables `write_batch` fills before the observations. */
  function Leading(b: Batch): seq<(Table, seq<Row>)> {
    [(IngestRunT, b.ingestRun), (RawArtifactT, b.rawArtifact), (ProcessingRunT, b.processingRun),
     (ExtractedRecordT, b.records), (CandidateT, b.candidates), (AttemptT, b.attempts)]
  }

  function Flat(parts: seq<(Table, seq<Row>)>): seq<Row> {
    if parts == [] then [] else Flat(parts[..|parts| - 1]) + parts[|parts| - 1].1
  }

  /** `write_batch`: the plain tables, the observations, the reviews. */
  function WriteForm(engine: Engine, db: set<Row>, b: Batch, idempotent: bool, kept: nat): Result
    requires kept <= |b.observations|
  {
    match Executed(engine, db, 0, Flat(Leading(b)), false)
    case Raised(reason, left) => Raised(reason, left + |b.observations| + |b.reviews|)
    case Done(db1, _) =>
      match ObservationForm(engine, db1, b.observations, idempotent, kept)
      case Raised(reason, left) => Raised(reason, left + |b.reviews|)
      case Done(db2, _) => Executed(engine, db2, 0, b.reviews, false)
  }

  /** What `write_batch` reports: the rows offered to each table, inserted or not. */
  function Offered(b: Batch): map<Table, nat> {
    map[IngestRunT := |b.ingestRun|, RawArtifactT := |b.rawArtifact|, ProcessingRunT := |b.processingRun|,
        ExtractedRecordT := |b.records|, CandidateT := |b.candidates|, AttemptT := |b.attempts|,
        ObservationT := |b.observations|, ReviewT := |b.reviews|]
  }

  datatype Written = Counts(counts: map<Table, nat>) | Failed(reason: Reason)

  /** The counts after the first tables. */
  function Tally(parts: seq<(Table, seq<Row>)>): map<Table, nat> {
    if parts == [] then map[] else Tally(parts[..|parts| - 1])[parts[|parts| - 1].0 := |parts[|parts| - 1].1|]
  }

  lemma TallyIsOffered(b: Batch)
    ensures Tally(Leading(b))[ObservationT := |b.observations|][ReviewT := |b.reviews|] == Offered(b)
  {
    var p := Leading(b);
    assert p[..5][..4] == p[..4] && p[..4][..3] == p[..3] && p[..3][..2] == p[..2] && p[..2][..1] == p[..1];
    assert Tally(p[..1]) == map[IngestRunT := |b.ingestRun|] by {
      assert p[..1][..0] == [];
    }
    assert Tally(p[..3]) == Tally(p[..1])[RawArtifactT := |b.rawArtifact|][ProcessingRunT := |b.processingRun|];
    assert Tally(p[..5]) == Tally(p[..3])[ExtractedRecordT := |b.records|][CandidateT := |b.candidates|];
    assert Tally(p) == Tally(p[..5])[AttemptT := |b.attempts|];
  }

  lemma NothingYet(engine: Engine, db: set<Row>, parts: seq<(Table, seq<Row>)>)
    ensures Executed(engine, db, 0, Flat(parts[..0]), false) == Done(db, 0) && Tally(parts[..0]) == map[]
  {
    assert parts[..0] == [];
  }

  /** A failure in an early table is the failure of the whole sequence of statements. */
  lemma {:induction false} FailsAsAWhole(engine: Engine, db: set<Row>, parts: seq<(Table, seq<Row>)>, i: nat,
                                         reason: Reason)
    requires i <= |parts| && RaisesFor(Executed(engine, db, 0, Flat(parts[..i]), false), reason)
    ensures RaisesFor(Executed(engine, db, 0, Flat(parts), false), reason)
    decreases |parts| - i
  {
    hide Executed, Flat, Tally;
    if i < |parts| {
      FlatStep(parts, i);
      ExecutedAppend(engine, db, 0, Flat(parts[..i]), parts[i].1, false);
      FailsAsAWhole(engine, db, parts, i + 1, reason);
    } else {
      assert parts[..i] == parts;
    }
  }

  predicate RaisesFor(r: Result, reason: Reason) {
    r.Raised? && r.reason == reason
  }

  lemma FlatStep(parts: seq<(Table, seq<Row>)>, i: nat)
    requires i < |parts|
    ensures Flat(parts[..i + 1]) == Flat(parts[..i]) + parts[i].1
    ensures Tally(parts[..i + 1]) == Tally(parts[..i])[parts[i].0 := |parts[i].1|]
  {
    assert parts[..i + 1][..i] == parts[..i];
  }

  lemma {:induction false} ExecutedAppend(engine: Engine, db: set<Row>, n: int, a: seq<Row>, b: seq<Row>, skip: bool)
    ensures Executed(engine, db, n, a + b, skip) ==
            match Executed(engine, db, n, a, skip)
            case Done(db', m) => Executed(engine, db', m, b, skip)
            case Raised(reason, left) => Raised(reason, left + |b|)
    decreases |a|
  {
    if a == [] {
      assert a + b == b;
    } else {
      hide Alone;
      assert (a + b)[0] == a[0] && (a + b)[1..] == a[1..] + b;
      ExecutedAppend(engine, db + {a[0]}, n + 1, a[1..], b, skip);
      ExecutedAppend(engine, db, n, a[1..], b, skip);
    }
  }

  lemma {:induction false} CountShifts(engine: Engine, db: set<Row>, n: int, m: int, rows: seq<Row>, skip: bool)
    ensures Executed(engine, db, n, rows, skip) ==
            match Executed(engine, db, m, rows, skip)
            case Done(db', k) => Done(db', k - m + n)
            case Raised(reason, left) => Raised(reason, left)
    decreases |rows|
  {
    if rows != [] {
      hide Alone;
      CountShifts(engine, db + {rows[0]}, n + 1, m + 1, rows[1..], skip);
      CountShifts(engine, db, n, m, rows[1..], skip);
    }
  }

  lemma OneMore(engine: Engine, db: set<Row>, rows: seq<Row>, i: nat, at: set<Row>, count: int, skip: bool)
    requires i < |rows| && Executed(engine, db, 0, rows[..i], skip) == Done(at, count)
    ensures Executed(engine, db, 0, rows[..i + 1], skip) ==
            match Alone(engine, at, rows[i], skip)
            case Inserted => Done(at + {rows[i]}, count + 1)
            case Rejected(reason) => Raised(reason, 1)
            case _ => Done(at, count)
    ensures Alone(engine, at, rows[i], skip).Rejected? ==>
            Executed(engine, db, 0, rows, skip) == Raised(Alone(engine, at, rows[i], skip).reason, |rows| - i)
  {
    hide Alone;
    assert rows[..i + 1] == rows[..i] + [rows[i]];
    ExecutedAppend(engine, db, 0, rows[..i], [rows[i]], skip);
    assert rows == rows[..i] + rows[i..] && rows[i..][0] == rows[i];
    ExecutedAppend(engine, db, 0, rows[..i], rows[i..], skip);
    assert [rows[i]][1..] == [];
  }

  ghost predicate ReachesAll(engine: Engine, db: set<Row>, rows: seq<Row>, i: nat) {
    forall k: nat :: k <= i ==> Reaches(engine, db, rows, k)
  }

  lemma ReachesOneMore(engine: Engine, db: set<Row>, rows: seq<Row>, i: nat)
    requires i < |rows| && ReachesAll(engine, db, rows, i)
    requires Alone(engine, db + Rows(rows[..i]), rows[i], false) == Inserted
    ensures ReachesAll(engine, db, rows, i + 1) && db + Rows(rows[..i + 1]) == db + Rows(rows[..i]) + {rows[i]}
  {
    hide Alone, Executed;
    assert Reaches(engine, db, rows, i);
    assert rows[..i + 1] == rows[..i] + [rows[i]];
    RowsAppend(rows[..i], rows[i]);
    hide Rows;
    OneMore(engine, db, rows, i, db + Rows(rows[..i]), i, false);
  }

  lemma ReachesEarlier(engine: Engine, db: set<Row>, rows: seq<Row>, k: nat, i: nat)
    requires ReachesAll(engine, db, rows, i) && k <= i
    ensures Reaches(engine, db, rows, k)
  {
  }

  lemma ReachesNone(engine: Engine, db: set<Row>, rows: seq<Row>)
    ensures ReachesAll(engine, db, rows, 0) && db + Rows(rows[..0]) == db
    ensures Executed(engine, db, 0, rows[..0], true) == Executed(engine, db, 0, rows[..0], false) == Done(db, 0)
  {
    assert rows[..0] == [] && Rows([]) == {};
  }

  lemma AloneAnswers(engine: Engine, db: set<Row>, row: Row)
    ensures Alone(engine, db, row, true) !in {Waits, FallsBack}
    ensures Alone(engine, db, row, false) !in {Waits, FallsBack, Skipped}
  {
  }

  lemma {:induction false} ExecutedRaises(engine: Engine, db: set<Row>, n: int, rows: seq<Row>, skip: bool)
    ensures var r := Executed(engine, db, n, rows, skip); r.Raised? ==> 0 < r.left <= |rows|
    decreases |rows|
  {
    if rows != [] {
      hide Alone;
      ExecutedRaises(engine, db + {rows[0]}, n + 1, rows[1..], skip);
      ExecutedRaises(engine, db, n, rows[1..], skip);
    }
  }

  /** A statement that failed left at most the rows before the one it failed at. */
  lemma LeftBeforeFailure(engine: Engine, db: set<Row>, rows: seq<Row>, kept: nat)
    requires kept <= |rows| && LeftBehind(engine, db, rows, kept)
    ensures var r := Executed(engine, db, 0, rows, false);
            if r.Raised? then kept <= |rows| - r.left else kept == 0
  {
    hide Executed, Rows;
    if kept > 0 {
      assert rows == rows[..kept] + rows[kept..];
      ExecutedAppend(engine, db, 0, rows[..kept], rows[kept..], false);
      ExecutedRaises(engine, db + Rows(rows[..kept]), kept, rows[kept..], false);
    } else {
      ExecutedRaises(engine, db, 0, rows, false);
    }
  }

  /**
   * The two forms of `insert_observations` end in the same table, or in the same failure at the same
   * row, whatever a failed statement left behind, exactly when the batch is portable. Where MariaDB
   * finds every row fine it stores the rows with keys new to it and counts all but those left behind.
   */
  lemma FormsAgree(engine: Engine, db: set<Row>, rows: seq<Row>, kept: nat)
    requires engine.MariaDb? && Observations(rows) && kept <= |rows| && LeftBehind(engine, db, rows, kept)
    ensures SameTable(ObservationForm(Postgres, db, rows, true, 0), ObservationForm(engine, db, rows, true, kept))
            <==> Portable(engine, db, rows)
    ensures AllFine(engine, db, rows, |rows|) ==>
              ObservationForm(engine, db, rows, true, kept)
              == Done(TableAfter(engine, db, rows, |rows|), |NewIndices(engine, db, rows, |rows|)| - kept)
  {
    hide Executed, RowByRow, MariaForm, LeftBehind, Portable, TableAfter, NewIndices, AllFine;
    MariaIsTheLoop(engine, db, rows, kept);
    EnginesAgree(engine, db, rows);
    if AllFine(engine, db, rows, |rows|) {
      LoopResult(engine, db, rows);
    }
  }

  /** Rows that bring no new key are passed over in either form, and none is counted. */
  lemma NothingNew(engine: Engine, db: set<Row>, rows: seq<Row>, kept: nat)
    requires Observations(rows) && kept <= |rows| && LeftBehind(engine, db, rows, kept)
    requires engine.Postgres? ==> kept == 0
    requires forall j :: 0 <= j < |rows| ==> Checks(engine, rows[j]) && KeyHeld(engine, db, rows[j].key)
    ensures ObservationForm(engine, db, rows, true, kept) == Done(db, 0)
  {
    NoneIsNew(engine, db, rows);
    hide TableAfter, NewIndices, Fine;
    if engine.Postgres? {
      PostgresStoresNewRows(db, rows);
    } else {
      MariaIsTheLoop(engine, db, rows, kept);
      LoopResult(engine, db, rows);
      NoneLeft(engine, db, rows, kept);
    }
  }

  lemma NoneIsNew(engine: Engine, db: set<Row>, rows: seq<Row>)
    requires Observations(rows)
    requires forall j :: 0 <= j < |rows| ==> Checks(engine, rows[j]) && KeyHeld(engine, db, rows[j].key)
    ensures AllFine(engine, db, rows, |rows|)
    ensures TableAfter(engine, db, rows, |rows|) == db && |NewIndices(engine, db, rows, |rows|)| == 0
  {
    assert forall j: nat :: j < |rows| ==> !IsNew(engine, db, rows, j) && Fine(engine, db, rows, j);
    assert NewIndices(engine, db, rows, |rows|) == {} && NewRows(engine, db, rows, |rows|) == {};
  }

  lemma NoneLeft(engine: Engine, db: set<Row>, rows: seq<Row>, kept: nat)
    requires Observations(rows) && kept <= |rows| && LeftBehind(engine, db, rows, kept)
    requires forall j :: 0 <= j < |rows| ==> KeyHeld(engine, db, rows[j].key)
    ensures kept == 0
  {
    if kept > 0 {
      FirstIsRefused(engine, db, rows[..kept]);
    }
  }

  lemma FirstIsRefused(engine: Engine, db: set<Row>, rows: seq<Row>)
    requires rows != [] && rows[0].Observation? && KeyHeld(engine, db, rows[0].key)
    ensures Executed(engine, db, 0, rows, false).Raised?
  {
    ObservationAnswer(engine, db, rows[0]);
  }

  // ------------------------------------------------- whole transactions

  /** What a failed observation statement inside `write_batch` can leave behind, given the tables before it. */
  predicate Admissible(engine: Engine, db: set<Row>, b: Batch, kept: nat) {
    && kept <= |b.observations| && (engine.Postgres? ==> kept == 0)
    && match Executed(engine, db, 0, Flat(Leading(b)), false)
       case Done(table, _) => LeftBehind(engine, table, b.observations, kept)
       case Raised(_, _) => kept == 0
  }

  /** Folding text makes no difference to a plain INSERT: neither to its checks nor to its keys. */
  predicate TextsAgree(engine: Engine, db: set<Row>, row: Row) {
    && Checks(engine, row) == Checks(Postgres, row)
    && (Checks(Postgres, row) ==>
          ((exists q :: q in db && Clash(engine, row, q)) <==> (exists q :: q in db && Clash(Postgres, row, q))))
  }

  lemma PlainAgree(engine: Engine, db: set<Row>, row: Row)
    ensures Alone(engine, db, row, false) == Alone(Postgres, db, row, false) <==> TextsAgree(engine, db, row)
  {
    MariaIsLooser(engine, row, row);
    forall q | q in db && Clash(Postgres, row, q)
      ensures Clash(engine, row, q)
    {
      MariaIsLooser(engine, row, q);
    }
    hide Checks, Clash, Refs, Has, KeyHeld;
  }

  /** It makes none to any statement of a sequence that PostgreSQL reaches. */
  predicate PlainAlike(engine: Engine, db: set<Row>, rows: seq<Row>)
    decreases |rows|
  {
    rows != [] ==>
      && TextsAgree(engine, db, rows[0])
      && (Alone(Postgres, db, rows[0], false) == Inserted ==> PlainAlike(engine, db + {rows[0]}, rows[1..]))
  }

  lemma {:induction false} PlainTablesAgree(engine: Engine, db: set<Row>, n: int, rows: seq<Row>)
    ensures SameTable(Executed(Postgres, db, n, rows, false), Executed(engine, db, n, rows, false))
            <==> PlainAlike(engine, db, rows)
    decreases |rows|
  {
    if rows != [] {
      PlainAgree(engine, db, rows[0]);
      PlainAnswers(engine, db, rows[0]);
      PlainAnswers(Postgres, db, rows[0]);
      hide Alone, TextsAgree;
      PlainTablesAgree(engine, db + {rows[0]}, n + 1, rows[1..]);
      ExecutedRaises(engine, db + {rows[0]}, n + 1, rows[1..], false);
      ExecutedRaises(Postgres, db + {rows[0]}, n + 1, rows[1..], false);
    }
  }

  predicate OnlyReviews(rows: seq<Row>) {
    forall j :: 0 <= j < |rows| ==> rows[j].Review?
  }

  /** The tables hold the same, observations aside. */
  ghost predicate SameBeside(a: set<Row>, b: set<Row>) {
    forall q: Row :: !q.Observation? ==> (q in a <==> q in b)
  }

  /** Reviews fare the same whatever observations there are. */
  lemma {:induction false} ReviewsIgnoreObservations(engine: Engine, a: set<Row>, b: set<Row>, n: int, m: int,
                                                     rows: seq<Row>)
    requires SameBeside(a, b) && OnlyReviews(rows)
    ensures var r, q := Executed(engine, a, n, rows, false), Executed(engine, b, m, rows, false);
            (r.Raised? || q.Raised?) ==> r == q
    decreases |rows|
  {
    if rows != [] {
      ReviewIgnoresObservations(engine, a, b, rows[0]);
      PlainAnswers(engine, a, rows[0]);
      hide Alone;
      assert OnlyReviews(rows[1..]);
      ReviewsIgnoreObservations(engine, a + {rows[0]}, b + {rows[0]}, n + 1, m + 1, rows[1..]);
    }
  }

  lemma ReviewIgnoresObservations(engine: Engine, a: set<Row>, b: set<Row>, row: Row)
    requires SameBeside(a, b) && row.Review?
    ensures Alone(engine, a, row, false) == Alone(engine, b, row, false)
    ensures TextsAgree(engine, a, row) == TextsAgree(engine, b, row)
  {
    forall q | Clash(engine, row, q) || Clash(Postgres, row, q)
      ensures q in a <==> q in b
    {
    }
    forall k | k in Refs(row)
      ensures Has(a, k) <==> Has(b, k)
    {
    }
    hide Checks, Clash, Refs, Has, KeyHeld;
  }

  /** The form adds observations to the table and nothing else. */
  lemma ObservationsOnly(engine: Engine, db: set<Row>, rows: seq<Row>, kept: nat)
    requires Observations(rows) && kept <= |rows|
    ensures var r := ObservationForm(engine, db, rows, true, kept);
            r.Done? ==> SameBeside(r.db, db)
  {
    hide Executed, RowByRow;
    assert forall q :: q in rows ==> q.Observation?;
    assert forall q :: q in Rows(rows[..kept]) ==> q in rows;
    hide Rows, Observations;
    ExecutedAdds(engine, db, 0, rows, true);
    ExecutedAdds(engine, db, 0, rows, false);
    LoopAdds(engine, db + Rows(rows[..kept]), 0, rows);
  }

  lemma {:induction false} ExecutedAdds(engine: Engine, db: set<Row>, n: int, rows: seq<Row>, skip: bool)
    ensures var r := Executed(engine, db, n, rows, skip);
            r.Done? ==> db <= r.db && forall q :: q in r.db ==> q in db || q in rows
    decreases |rows|
  {
    if rows != [] {
      hide Alone;
      ExecutedAdds(engine, db + {rows[0]}, n + 1, rows[1..], skip);
      ExecutedAdds(engine, db, n, rows[1..], skip);
    }
  }

  lemma {:induction false} LoopAdds(engine: Engine, db: set<Row>, n: int, rows: seq<Row>)
    ensures var r := RowByRow(engine, db, n, rows);
            r.Done? ==> db <= r.db && forall q :: q in r.db ==> q in db || q in rows
    decreases |rows|
  {
    if rows != [] {
      hide Alone;
      LoopAdds(engine, db + {rows[0]}, n + 1, rows[1..]);
      LoopAdds(engine, db, n, rows[1..]);
    }
  }

  /** Portable, but if the reviews end the transaction anyway folded keys do not matter. */
  predicate TailAlike(engine: Engine, db: set<Row>, observations: seq<Row>, reviews: seq<Row>)
    requires Observations(observations)
  {
    && AlikeAtFailure(engine, db, observations)
    && (AllFine(Postgres, db, observations, |observations|) ==>
          && PlainAlike(engine, db, reviews)
          && (Executed(Postgres, db, 0, reviews, false).Done? ==> NoTwins(engine, db, observations)))
  }

  /** What makes a whole transaction the same on both engines. */
  predicate BatchAlike(engine: Engine, db: set<Row>, b: Batch)
    requires Observations(b.observations)
  {
    && PlainAlike(engine, db, Flat(Leading(b)))
    && match Executed(Postgres, db, 0, Flat(Leading(b)), false)
       case Done(table, _) => TailAlike(engine, table, b.observations, b.reviews)
       case Raised(_, _) => true
  }

  /** The observations and the reviews of `write_batch`. */
  function TailForm(engine: Engine, db: set<Row>, b: Batch, kept: nat): Result
    requires kept <= |b.observations|
  {
    match ObservationForm(engine, db, b.observations, true, kept)
    case Raised(reason, left) => Raised(reason, left + |b.reviews|)
    case Done(after, _) => Executed(engine, after, 0, b.reviews, false)
  }

  lemma TailRaises(engine: Engine, db: set<Row>, b: Batch, kept: nat)
    requires kept <= |b.observations|
    ensures var r := TailForm(engine, db, b, kept); r.Raised? ==> r.left <= |b.observations| + |b.reviews|
  {
    var rows, r := b.observations, ObservationForm(engine, db, b.observations, true, kept);
    ExecutedRaises(engine, db, 0, rows, true);
    ExecutedRaises(engine, db, 0, rows, false);
    LoopRaises(engine, db + Rows(rows[..kept]), 0, rows);
    if r.Done? {
      ExecutedRaises(engine, r.db, 0, b.reviews, false);
    }
    hide Executed, RowByRow, Rows;
  }

  lemma TailsAgree(engine: Engine, db: set<Row>, b: Batch, kept: nat)
    requires engine.MariaDb? && Observations(b.observations) && OnlyReviews(b.reviews)
    requires kept <= |b.observations| && LeftBehind(engine, db, b.observations, kept)
    ensures SameTable(TailForm(Postgres, db, b, 0), TailForm(engine, db, b, kept))
            <==> TailAlike(engine, db, b.observations, b.reviews)
  {
    var rows := b.observations;
    hide Executed, AlikeAtFailure, NoTwins, AllFine, LeftBehind, PlainAlike, Observations, OnlyReviews;
    TailStarts(engine, db, rows, kept);
    var p, m := ObservationForm(Postgres, db, rows, true, 0), ObservationForm(engine, db, rows, true, kept);
    hide ObservationForm;
    if p.Done? && m.Done? {
      ReviewsAgree(engine, db, p.db, m.db, b.reviews);
    } else if p.Done? {
      assert false;
    } else if m.Done? {
      ExecutedRaises(engine, m.db, 0, b.reviews, false);
    }
  }

  /** The observations of a transaction on both engines. */
  lemma TailStarts(engine: Engine, db: set<Row>, rows: seq<Row>, kept: nat)
    requires engine.MariaDb? && Observations(rows) && kept <= |rows| && LeftBehind(engine, db, rows, kept)
    ensures var p, m := ObservationForm(Postgres, db, rows, true, 0), ObservationForm(engine, db, rows, true, kept);
            && (p.Done? <==> AllFine(Postgres, db, rows, |rows|))
            && (p.Done? ==> m.Done? && (p.db == m.db <==> NoTwins(engine, db, rows)) && AlikeAtFailure(engine, db, rows)
                            && SameBeside(p.db, db) && SameBeside(m.db, db))
            && (p.Raised? ==> p.left > 0 && (m == p <==> AlikeAtFailure(engine, db, rows)))
  {
    FormsAgree(engine, db, rows, kept);
    PostgresStoresNewRows(db, rows);
    ObservationsOnly(Postgres, db, rows, 0);
    ObservationsOnly(engine, db, rows, kept);
    var bad := FirstBad(db, rows);
    hide Executed, MariaForm, TableAfter, NewIndices, Fine, SameBeside, LeftBehind, RefusedAlike, Twin;
    if bad == |rows| {
      FineIsFine(engine, db, rows, |rows|);
    } else {
      PostgresFails(db, rows, bad);
    }
  }

  /** The reviews on top of what either engine made of the observations. */
  lemma ReviewsAgree(engine: Engine, db: set<Row>, p: set<Row>, m: set<Row>, reviews: seq<Row>)
    requires OnlyReviews(reviews) && SameBeside(p, db) && SameBeside(m, db)
    requires forall q :: q in p - m ==> q.Observation?
    ensures SameTable(Executed(Postgres, p, 0, reviews, false), Executed(engine, m, 0, reviews, false)) <==>
            && PlainAlike(engine, db, reviews)
            && (Executed(Postgres, db, 0, reviews, false).Done? ==> p == m)
  {
    PlainTablesAgree(engine, db, 0, reviews);
    ReviewsIgnoreObservations(Postgres, p, db, 0, 0, reviews);
    ReviewsIgnoreObservations(engine, m, db, 0, 0, reviews);
    hide SameBeside, PlainAlike;
    PlainStores(Postgres, p, 0, reviews);
    PlainStores(engine, m, 0, reviews);
    PlainStores(Postgres, db, 0, reviews);
    PlainStores(engine, db, 0, reviews);
  }

  /** Plain statements that all go in add their rows. */
  lemma {:induction false} PlainStores(engine: Engine, db: set<Row>, n: int, rows: seq<Row>)
    ensures var r := Executed(engine, db, n, rows, false); r.Done? ==> r.db == db + Rows(rows)
    decreases |rows|
  {
    if rows != [] {
      PlainAnswers(engine, db, rows[0]);
      hide Alone;
      assert rows == [rows[0]] + rows[1..];
      FirstAndRest(rows[0], rows[1..]);
      PlainStores(engine, db + {rows[0]}, n + 1, rows[1..]);
    }
  }

  /**
   * A whole `write_batch` transaction commits the same rows on both engines, or fails alike at the
   * same row, whatever a failed statement left behind, exactly when the batch is alike to them.
   */
  lemma TransactionsAgree(engine: Engine, db: set<Row>, b: Batch, kept: nat)
    requires engine.MariaDb? && Observations(b.observations) && OnlyReviews(b.reviews)
    requires Admissible(engine, db, b, kept)
    ensures SameTable(WriteForm(Postgres, db, b, true, 0), WriteForm(engine, db, b, true, kept))
            <==> BatchAlike(engine, db, b)
  {
    var leading := Flat(Leading(b));
    PlainTablesAgree(engine, db, 0, leading);
    ExecutedRaises(engine, db, 0, leading, false);
    ExecutedRaises(Postgres, db, 0, leading, false);
    PlainStores(engine, db, 0, leading);
    PlainStores(Postgres, db, 0, leading);
    var p, m := Executed(Postgres, db, 0, leading, false), Executed(engine, db, 0, leading, false);
    hide Executed, Flat, Leading, PlainAlike, TailAlike, LeftBehind, ObservationForm, Observations, OnlyReviews;
    if p.Done? {
      TailRaises(Postgres, p.db, b, 0);
    }
    if m.Done? {
      TailRaises(engine, m.db, b, kept);
    }
    if p.Done? && m.Done? {
      TailsAgree(engine, p.db, b, kept);
    }
  }

  // ----------------------------------------------------- the plain form

  /** Neither the table nor an earlier row has the row's key or identifier. */
  predicate Apart(engine: Engine, db: set<Row>, rows: seq<Row>, j: nat)
    requires Observations(rows) && j < |rows|
  {
    && !KeyHeld(engine, db, rows[j].key) && !Has(db, PkOf(rows[j]))
    && forall i :: 0 <= i < j ==> !Same(engine, rows[i].key, rows[j].key) && rows[i].id != rows[j].id
  }

  /** Nothing stands in the way of row `j` of a plain INSERT. */
  predicate Insertable(engine: Engine, db: set<Row>, rows: seq<Row>, j: nat)
    requires Observations(rows) && j < |rows|
  {
    Checks(engine, rows[j]) && Apart(engine, db, rows, j) && forall k :: k in Refs(rows[j]) ==> Has(db, k)
  }

  predicate AllInsertable(engine: Engine, db: set<Row>, rows: seq<Row>, n: nat)
    requires Observations(rows) && n <= |rows|
  {
    forall j :: 0 <= j < n ==> Insertable(engine, db, rows, j)
  }

  function WhyNot(engine: Engine, db: set<Row>, rows: seq<Row>, j: nat): Reason
    requires Observations(rows) && j < |rows|
  {
    if !Checks(engine, rows[j]) then CheckViolated
    else if !Apart(engine, db, rows, j) then Duplicate
    else MissingReference
  }

  /** The answer to row `j` once the rows before it are stored. */
  lemma PlainAnswer(engine: Engine, db: set<Row>, rows: seq<Row>, j: nat)
    requires Observations(rows) && j < |rows|
    ensures Alone(engine, db + Rows(rows[..j]), rows[j], false)
         == if Insertable(engine, db, rows, j) then Inserted else Rejected(WhyNot(engine, db, rows, j))
  {
    var table, row := db + Rows(rows[..j]), rows[j];
    KeyHeldBeside(engine, db, rows, j, row.key);
    HasBeside(db, rows, j, PkOf(row));
    forall k | k in Refs(row)
      ensures Has(table, k) <==> Has(db, k)
    {
      HasBeside(db, rows, j, k);
    }
    hide Checks, KeyHeld, Has, Refs, Rows, Same, Alone;
    ObservationAnswer(engine, table, row);
  }

  lemma KeyHeldBeside(engine: Engine, db: set<Row>, rows: seq<Row>, j: nat, key: string)
    requires Observations(rows) && j <= |rows|
    ensures KeyHeld(engine, db + Rows(rows[..j]), key) <==>
            KeyHeld(engine, db, key) || exists i :: 0 <= i < j && Same(engine, rows[i].key, key)
  {
    var table := db + Rows(rows[..j]);
    if KeyHeld(engine, db, key) {
      KeyHeldMonotone(engine, db, table, key);
    } else if exists i :: 0 <= i < j && Same(engine, rows[i].key, key) {
      var i :| 0 <= i < j && Same(engine, rows[i].key, key);
      assert rows[..j][i] in Rows(rows[..j]);
      assert rows[i] in table;
    }
  }

  lemma HasBeside(db: set<Row>, rows: seq<Row>, j: nat, k: Key)
    requires Observations(rows) && j <= |rows|
    ensures Has(db + Rows(rows[..j]), k) <==>
            Has(db, k) || (k.table == ObservationT && exists i :: 0 <= i < j && rows[i].id == k.id)
  {
    var table := db + Rows(rows[..j]);
    if Has(db, k) {
      HasMonotone(db, table, k);
    } else if k.table == ObservationT && exists i :: 0 <= i < j && rows[i].id == k.id {
      var i :| 0 <= i < j && rows[i].id == k.id;
      assert rows[..j][i] in Rows(rows[..j]);
      assert rows[i] in table;
    }
  }

  lemma {:induction false} PlainPrefix(engine: Engine, db: set<Row>, rows: seq<Row>, n: nat)
    requires Observations(rows) && n <= |rows| && AllInsertable(engine, db, rows, n)
    ensures Executed(engine, db, 0, rows[..n], false) == Done(db + Rows(rows[..n]), n)
  {
    hide Insertable, Alone, Executed;
    if n == 0 {
      ReachesNone(engine, db, rows);
    } else {
      PlainPrefix(engine, db, rows, n - 1);
      PlainAnswer(engine, db, rows, n - 1);
      OneMore(engine, db, rows, n - 1, db + Rows(rows[..n - 1]), n - 1, false);
      assert rows[..n] == rows[..n - 1] + [rows[n - 1]];
      RowsAppend(rows[..n - 1], rows[n - 1]);
    }
  }

  /**
   * Without the idempotent form a batch is stored whole and counted whole when nothing stands in the
   * way of any of its rows, on either engine; otherwise it is refused at the first row it stands in
   * the way of.
   */
  lemma PlainStoresAll(engine: Engine, db: set<Row>, rows: seq<Row>, kept: nat)
    requires Observations(rows) && kept <= |rows|
    ensures AllInsertable(engine, db, rows, |rows|) ==>
              ObservationForm(engine, db, rows, false, kept) == Done(db + Rows(rows), |rows|)
    ensures forall j :: 0 <= j < |rows| && AllInsertable(engine, db, rows, j) && !Insertable(engine, db, rows, j) ==>
              ObservationForm(engine, db, rows, false, kept) == Raised(WhyNot(engine, db, rows, j), |rows| - j)
    ensures !AllInsertable(engine, db, rows, |rows|) ==> ObservationForm(engine, db, rows, false, kept).Raised?
  {
    hide Insertable, Executed, Rows, WhyNot, Alone;
    assert rows[..|rows|] == rows;
    if AllInsertable(engine, db, rows, |rows|) {
      PlainPrefix(engine, db, rows, |rows|);
    } else {
      var first := FirstRefused(engine, db, rows);
    }
    forall j | 0 <= j < |rows| && AllInsertable(engine, db, rows, j) && !Insertable(engine, db, rows, j)
      ensures Executed(engine, db, 0, rows, false) == Raised(WhyNot(engine, db, rows, j), |rows| - j)
    {
      PlainPrefix(engine, db, rows, j);
      PlainAnswer(engine, db, rows, j);
      OneMore(engine, db, rows, j, db + Rows(rows[..j]), j, false);
    }
  }

  lemma PlainReply(engine: Engine, db: set<Row>, rows: seq<Row>)
    ensures Observations(rows) && AllInsertable(engine, db, rows, |rows|) ==>
              Executed(engine, db, 0, rows, false) == Done(db + Rows(rows), |rows|)
    ensures Observations(rows) && !AllInsertable(engine, db, rows, |rows|) ==>
              Executed(engine, db, 0, rows, false).Raised?
    ensures rows[..0] == [] && Rows([]) == {}
  {
    if Observations(rows) {
      PlainStoresAll(engine, db, rows, 0);
    }
  }

  lemma FirstRefused(engine: Engine, db: set<Row>, rows: seq<Row>) returns (j: nat)
    requires Observations(rows) && !AllInsertable(engine, db, rows, |rows|)
    ensures j < |rows| && AllInsertable(engine, db, rows, j) && !Insertable(engine, db, rows, j)
  {
    hide Insertable;
    j := 0;
    while Insertable(engine, db, rows, j)
      decreases |rows| - j
      invariant j < |rows| && AllInsertable(engine, db, rows, j)
    {
      j := j + 1;
    }
  }

  class Connection {
    const engine: Engine
    var committed: set<Row>
    /** What the open transaction sees; the committed rows when none is open. */
    var view: set<Row>
    var savepoints: seq<set<Row>>

    constructor (engine: Engine, db: set<Row>)
      ensures this.engine == engine && committed == view == db && savepoints == []
    {
      this.engine, committed, view, savepoints := engine, db, db, [];
    }

    method Commit()
      modifies this`committed, this`savepoints
      ensures committed == view && savepoints == []
    {
      committed := view;
      savepoints := [];
    }

    method Rollback()
      modifies this`view, this`savepoints
      ensures view == committed && savepoints == []
    {
      view := committed;
      savepoints := [];
    }

    method BeginNested()
      modifies this`savepoints
      ensures savepoints == old(savepoints) + [view]
    {
      savepoints := savepoints + [view];
    }

    method RollbackNested()
      requires savepoints != []
      modifies this`view, this`savepoints
      ensures view == old(savepoints)[|old(savepoints)| - 1]
      ensures savepoints == old(savepoints)[..|old(savepoints)| - 1]
    {
      view := savepoints[|savepoints| - 1];
      savepoints := savepoints[..|savepoints| - 1];
    }

    method CommitNested()
      requires savepoints != []
      modifies this`savepoints
      ensures savepoints == old(savepoints)[..|old(savepoints)| - 1]
    {
      savepoints := savepoints[..|savepoints| - 1];
    }

    method Execute(row: Row, skip: bool) returns (o: Outcome)
      modifies this`view
      ensures o == Alone(engine, old(view), row, skip)
      ensures view == if o == Inserted then old(view) + {row} else old(view)
    {
      o := Alone(engine, view, row, skip);
      if o == Inserted {
        view := view + {row};
      }
    }

    /**
     * One statement over many rows. PostgreSQL undoes the rows of a failed statement; with MariaDB
     * any prefix that went in before the failure may stay.
     */
    method ExecuteMany(rows: seq<Row>, skip: bool) returns (r: Reply, kept: nat)
      requires engine.MariaDb? ==> !skip
      modifies this`view
      ensures kept <= |rows| && (engine.Postgres? ==> kept == 0)
      ensures match Executed(engine, old(view), 0, rows, skip)
              case Done(db, n) => r == Count(n) && view == db && kept == 0
              case Raised(reason, _) =>
                r == Error(reason) && view == old(view) + Rows(rows[..kept]) &&
                (engine.MariaDb? ==> LeftBehind(engine, old(view), rows, kept))
    {
      hide Alone, Executed, Rows, Reaches, ReachesAll;
      var before, count, i := view, 0, 0;
      ReachesNone(engine, before, rows);
      while i < |rows|
        invariant i <= |rows| && Executed(engine, before, 0, rows[..i], skip) == Done(view, count)
        invariant !skip ==> count == i && view == before + Rows(rows[..i]) && ReachesAll(engine, before, rows, i)
      {
        OneMore(engine, before, rows, i, view, count, skip);
        AloneAnswers(engine, view, rows[i]);
        if !skip && Alone(engine, view, rows[i], false) == Inserted {
          ReachesOneMore(engine, before, rows, i);
        }
        var o := Execute(rows[i], skip);
        match o {
          case Inserted => count := count + 1;
          case Rejected(reason) =>
            kept := 0;
            if engine.MariaDb? {
              kept :| 0 <= kept <= i;
              ReachesEarlier(engine, before, rows, kept, i);
            }
            view := before + Rows(rows[..kept]);
            ReachesNone(engine, before, rows);
            return Error(reason), kept;
          case _ =>
        }
        i := i + 1;
      }
      assert rows[..i] == rows;
      return Count(count), 0;
    }

    /** Appends observations, passing over those whose key is stored already. */
    method InsertObservations(rows: seq<Row>, idempotent: bool) returns (r: Reply, ghost kept: nat)
      modifies this`view, this`savepoints
      ensures kept <= |rows| && LeftBehind(engine, old(view), rows, kept) && (engine.Postgres? ==> kept == 0)
      ensures savepoints == old(savepoints)
      ensures match ObservationForm(engine, old(view), rows, idempotent, kept)
              case Done(db, n) => r == Count(n) && view == db
              case Raised(reason, _) => r == Error(reason)
      ensures Observations(rows) && !idempotent ==>
                if AllInsertable(engine, old(view), rows, |rows|)
                then r == Count(|rows|) && view == old(view) + Rows(rows)
                else r.Error?
      ensures r.Error? && !idempotent ==> view == old(view) + Rows(rows[..kept])
      ensures r.Error? && engine.Postgres? ==> view == old(view)
    {
      hide Alone, Rows, Reaches, AllInsertable, Observations;
      kept := 0;
      if rows == [] {
        PlainReply(engine, view, rows);
        return Count(0), 0;
      }
      if engine.Postgres? || !idempotent {
        var left;
        PlainReply(engine, view, rows);
        r, left := ExecuteMany(rows, idempotent);
        return r, left;
      }
      var left;
      r, left := ExecuteMany(rows, false);
      kept := left;
      if r != Error(Duplicate) {
        return;
      }
      ghost var start := view;
      var inserted := 0;
      assert rows[0..] == rows;
      for i := 0 to |rows|
        invariant savepoints == old(savepoints)
        invariant RowByRow(engine, start, 0, rows) == RowByRow(engine, view, inserted, rows[i..])
      {
        assert rows[i..][0] == rows[i] && rows[i..][1..] == rows[i + 1..];
        BeginNested();
        var o := Execute(rows[i], false);
        match o {
          case Rejected(reason) =>
            RollbackNested();
            if reason != Duplicate {
              return Error(reason), kept;
            }
          case Inserted =>
            CommitNested();
            inserted := inserted + 1;
          case _ => CommitNested();
        }
      }
      return Count(inserted), kept;
    }

    /** Plain INSERTs, one table after another, counting the rows offered. */
    method InsertTables(parts: seq<(Table, seq<Row>)>) returns (w: Written)
      modifies this`view
      ensures match Executed(engine, old(view), 0, Flat(parts), false)
              case Done(db, _) => w == Counts(Tally(parts)) && view == db
              case Raised(reason, _) => w == Failed(reason)
    {
      hide Executed, Alone, Rows, Reaches, Flat, Tally;
      var counts: map<Table, nat> := map[];
      ghost var start, n := view, 0;
      NothingYet(engine, start, parts);
      for i := 0 to |parts|
        invariant Executed(engine, start, 0, Flat(parts[..i]), false) == Done(view, n)
        invariant counts == Tally(parts[..i])
      {
        FlatStep(parts, i);
        ExecutedAppend(engine, start, 0, Flat(parts[..i]), parts[i].1, false);
        CountShifts(engine, view, n, 0, parts[i].1, false);
        var r, none := ExecuteMany(parts[i].1, false);
        if r.Error? {
          FailsAsAWhole(engine, start, parts, i + 1, r.reason);
          return Failed(r.reason);
        }
        n := n + r.n;
        counts := counts[parts[i].0 := |parts[i].1|];
      }
      assert parts[..|parts|] == parts;
      return Counts(counts);
    }

    /** The tables of a batch in dependency order; committing or not is left to the caller. */
    method WriteBatch(b: Batch, idempotent: bool) returns (w: Written, ghost kept: nat)
      modifies this`view, this`savepoints
      ensures Admissible(engine, old(view), b, kept) && savepoints == old(savepoints)
      ensures match WriteForm(engine, old(view), b, idempotent, kept)
              case Done(db, _) => w == Counts(Offered(b)) && view == db
              case Raised(reason, _) => w == Failed(reason)
    {
      hide Executed, Rows, Reaches, ObservationForm, Leading, Flat, Tally;
      w := InsertTables(Leading(b));
      if w.Failed? {
        return w, 0;
      }
      var counts, r := w.counts, Count(0);
      r, kept := InsertObservations(b.observations, idempotent);
      if r.Error? {
        return Failed(r.reason), kept;
      }
      counts := counts[ObservationT := |b.observations|];
      var last, none := ExecuteMany(b.reviews, false);
      if last.Error? {
        return Failed(last.reason), kept;
      }
      counts := counts[ReviewT := |b.reviews|];
      TallyIsOffered(b);
      return Counts(counts), kept;
    }

    /** `with eng.begin() as conn: write_batch(conn, ...)`: all of the batch is committed, or nothing. */
    method WriteAndCommit(b: Batch, idempotent: bool) returns (w: Written, ghost kept: nat)
      requires view == committed && savepoints == []
      modifies this
      ensures view == committed && savepoints == [] && Admissible(engine, old(committed), b, kept)
      ensures match WriteForm(engine, old(committed), b, idempotent, kept)
              case Done(db, _) => w == Counts(Offered(b)) && committed == db
              case Raised(reason, _) => w == Failed(reason) && committed == old(committed)
    {
      hide WriteForm, Offered;
      w, kept := WriteBatch(b, idempotent);
      if w.Failed? {
        Rollback();
      } else {
        Commit();
      }
    }
  }
}

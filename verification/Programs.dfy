/**
 * The transaction of a job as each engine runs it: row by row with ON CONFLICT on PostgreSQL; with
 * the observations in one many-row statement, and a savepoint loop behind it, on MariaDB.
 */
module Programs {
  import opened Schema
  import opened Store
  import opened Generate
  import opened Jobs

  function FirstObservation(job: Job): nat {
    match job
    case Ingest(o) => 3 + 4 * o.rows
    case Reparse(_) => 181
  }

  function Observed(job: Job): nat {
    match job
    case Ingest(o) => o.rows
    case Reparse(_) => 60
  }

  lemma ObservationPlaces(job: Job, j: nat)
    requires j < Size(job)
    ensures FirstObservation(job) + Observed(job) <= Size(job)
    ensures PlaceAt(job, j).table == ObservationT <==>
              FirstObservation(job) <= j < FirstObservation(job) + Observed(job)
  {
  }

  function ObservationsOf(job: Job, scale: Scale): seq<Row> {
    SizeHolds(job);
    seq(Observed(job), i requires 0 <= i < Observed(job) => LineOf(job, FirstObservation(job) + i, scale))
  }

  lemma SizeHolds(job: Job)
    ensures FirstObservation(job) + Observed(job) <= Size(job)
  {
  }

  function PostgresProgram(job: Job, scale: Scale): seq<Call> {
    seq(Size(job), j requires 0 <= j < Size(job) =>
      One(LineOf(job, j, scale), PlaceAt(job, j).table == ObservationT))
  }

  /** The `k`-th call on MariaDB, where all the observations are one call. */
  function MariaCall(job: Job, k: nat, keep: nat, scale: Scale): Call
    requires k < MariaSize(job)
  {
    if k < FirstObservation(job) then One(LineOf(job, k, scale), false)
    else if Observed(job) == 0 then One(LineOf(job, k, scale), false)
    else if k == FirstObservation(job) then Many(ObservationsOf(job, scale), keep)
    else One(LineOf(job, k - 1 + Observed(job), scale), false)
  }

  function MariaSize(job: Job): nat {
    SizeHolds(job);
    if Observed(job) == 0 then Size(job) else Size(job) - Observed(job) + 1
  }

  function MariaProgram(job: Job, keep: nat, scale: Scale): seq<Call> {
    seq(MariaSize(job), k requires 0 <= k < MariaSize(job) => MariaCall(job, k, keep, scale))
  }

  /** What a job's transaction is told to do; `keep` says what a failed many-row statement leaves. */
  function Program(job: Job, engine: Engine, keep: nat, scale: Scale): seq<Call> {
    if engine.Postgres? then PostgresProgram(job, scale) else MariaProgram(job, keep, scale)
  }

  lemma ProgramIsWellFormed(job: Job, engine: Engine, keep: nat, scale: Scale)
    ensures WellFormed(Program(job, engine, keep, scale))
  {
    hide RowIn, PlaceAt, Size;
    SizeHolds(job);
    var rows := ObservationsOf(job, scale);
    forall i | 0 <= i < |rows|
      ensures rows[i].Observation?
    {
      var j := FirstObservation(job) + i;
      assert rows[i] == LineOf(job, j, scale);
      ObservationPlaces(job, j);
      RowTable(job, PlaceAt(job, j), scale);
      assert TableOf(LineOf(job, j, scale)) == ObservationT;
    }
  }

  // ---------------------------------------------------------- progress

  /** How many of the job's rows the session has dealt with. */
  function Dealt(t: Session, job: Job, engine: Engine): nat {
    var first, n := FirstObservation(job), Observed(job);
    if engine.Postgres? || n == 0 || t.pc < first then t.pc
    else if t.pc == first then first + if t.stage.Trying? then |t.fast| else t.stage.next
    else t.pc - 1 + n
  }

  /** A batch never needs its savepoint loop; a reparse goes to it at its first observation. */
  predicate OnTrack(t: Session, job: Job) {
    if job.Ingest? then t.stage.Trying? else t.fast == []
  }

  /** A session is part-way through its job and has stored that part. */
  ghost predicate Matches(t: Session, job: Job, engine: Engine, scale: Scale) {
    && Staged(t) && OnTrack(t, job) && Dealt(t, job, engine) <= Size(job)
    && (exists keep: nat :: t.program == Program(job, engine, keep, scale))
    && Held(t) == RowsOf(job, Dealt(t, job, engine), scale)
  }

  lemma OpenedMatches(job: Job, engine: Engine, keep: nat, scale: Scale)
    ensures Matches(Opened(Program(job, engine, keep, scale)), job, engine, scale)
  {
    ProgramIsWellFormed(job, engine, keep, scale);
    assert Dealt(Opened(Program(job, engine, keep, scale)), job, engine) == 0 && RowsOf(job, 0, scale) == {};
    hide Program, WellFormed;
    OpenedHonoured(engine, {}, Program(job, engine, keep, scale));
  }

  /** The row that is next, and how it is inserted. */
  lemma NextStatement(t: Session, job: Job, engine: Engine, scale: Scale)
    requires Matches(t, job, engine, scale)
    ensures t.pc < |t.program| <==> Dealt(t, job, engine) < Size(job)
    ensures t.pc < |t.program| ==> Ready(t) && IsNext(t, job, engine, scale)
  {
    hide RowIn, RowsOf, PlaceAt, Size, Held, Program, Kept, IsNext;
    var keep: nat :| t.program == Program(job, engine, keep, scale);
    if engine.Postgres? {
      PostgresNext(t, job, keep, scale);
    } else {
      MariaNext(t, job, engine, keep, scale);
    }
  }

  ghost predicate IsNext(t: Session, job: Job, engine: Engine, scale: Scale)
    requires Ready(t) && Dealt(t, job, engine) < Size(job)
  {
    var p, st := PlaceAt(job, Dealt(t, job, engine)), Current(t);
    && st.row == RowIn(job, p, scale) && (p.table == ObservationT <==> st.mode != Plain)
    && (st.mode == InBatch && !Kept(job, p) ==> t.fast == [])
  }

  lemma PostgresNext(t: Session, job: Job, keep: nat, scale: Scale)
    requires Staged(t) && t.program == Program(job, Postgres, keep, scale)
    ensures t.pc < |t.program| <==> Dealt(t, job, Postgres) < Size(job)
    ensures t.pc < |t.program| ==> Ready(t) && IsNext(t, job, Postgres, scale)
  {
    hide RowIn, RowsOf, PlaceAt, Size, Kept;
  }

  lemma MariaNext(t: Session, job: Job, engine: Engine, keep: nat, scale: Scale)
    requires engine.MariaDb? && Staged(t) && OnTrack(t, job) && t.program == Program(job, engine, keep, scale)
    ensures t.pc < |t.program| <==> Dealt(t, job, engine) < Size(job)
    ensures t.pc < |t.program| ==> Ready(t) && IsNext(t, job, engine, scale)
  {
    hide RowIn, RowsOf, PlaceAt, Size, FirstObservation, Observed;
    SizeHolds(job);
    var first, n := FirstObservation(job), Observed(job);
    if t.pc < |t.program| {
      assert t.program[t.pc] == MariaCall(job, t.pc, keep, scale);
      if n > 0 && t.pc == first {
        assert t.program[t.pc].rows == ObservationsOf(job, scale);
        assert Current(t).row == LineOf(job, Dealt(t, job, engine), scale);
      }
      assert Dealt(t, job, engine) < Size(job);
      assert Current(t).row == LineOf(job, Dealt(t, job, engine), scale);
      ObservationPlaces(job, Dealt(t, job, engine));
    }
  }

  /** After the row was inserted or passed over. */
  lemma Progress(t: Session, job: Job, engine: Engine, o: Outcome, scale: Scale)
    requires Matches(t, job, engine, scale) && t.pc < |t.program| && Ready(t)
    requires Dealt(t, job, engine) < Size(job)
    requires o == if Kept(job, PlaceAt(job, Dealt(t, job, engine))) then Inserted
                  else if Current(t).mode == InBatch then FallsBack else Skipped
    ensures Matches(Advance(t, o), job, engine, scale)
    ensures Dealt(Advance(t, o), job, engine) == Dealt(t, job, engine) + if o == FallsBack then 0 else 1
  {
    hide RowIn, RowsOf, PlaceAt, Size, Program, Kept, Staged, Held, Advance, Dealt, OnTrack;
    var keep: nat :| t.program == Program(job, engine, keep, scale);
    NextStatement(t, job, engine, scale);
    Counts(t, job, engine, keep, o, scale);
    AdvanceHolds(t, o);
    RowsStep(job, Dealt(t, job, engine), scale);
    SameProgram(t, o);
    if o == FallsBack {
      FallingBack(t);
    }
  }

  lemma FallingBack(t: Session)
    requires Ready(t) && Current(t).mode == InBatch && t.fast == []
    ensures Held(Advance(t, FallsBack)) == Held(t)
  {
    var none: seq<Row> := [];
    assert none[..Min(t.program[t.pc].keep, 0)] == none;
  }

  lemma Counts(t: Session, job: Job, engine: Engine, keep: nat, o: Outcome, scale: Scale)
    requires Staged(t) && OnTrack(t, job) && t.program == Program(job, engine, keep, scale) && Ready(t)
    requires Dealt(t, job, engine) < Size(job)
    requires o == if Kept(job, PlaceAt(job, Dealt(t, job, engine))) then Inserted
                  else if Current(t).mode == InBatch then FallsBack else Skipped
    ensures OnTrack(Advance(t, o), job)
    ensures Dealt(Advance(t, o), job, engine) == Dealt(t, job, engine) + if o == FallsBack then 0 else 1
  {
    hide RowIn;
    SizeHolds(job);
    ObservationPlaces(job, Dealt(t, job, engine));
  }
}

/**
 * The whole ledger as one state machine: writer processes that start, restart through
 * `next_sequence` and die, their transactions interleaved row by row, commits, aborts, orphaned
 * transactions and server crashes, from the loaded seed onwards, on either engine (workload.py,
 * ingest.py, crash.py).
 */
module Ledger {
  import opened Schema
  import opened Collation
  import opened Store
  import opened Generate
  import opened Seeded
  import opened Trace
  import opened Workload
  import opened Spaces
  import opened Jobs
  import opened Programs

  /**
   * `procs` gives each live writer process the sequence number it reached, `jobs` each of their open
   * transactions the batch it is writing, and `log` the batches committed so far, by their tags. A
   * transaction in the store without a job is an orphan: its process was killed, and the server has
   * not noticed yet.
   */
  datatype Ledger = Ledger(store: State, procs: map<int, int>, jobs: map<int, Job>,
                           log: map<Tag, Job>)

  datatype Move =
    | Start(w: nat)
    | Begin(id: int, job: Job, keep: nat)
    | Go(step: Step)
    | Kill(w: nat)
    | Reap(id: int)

  function Loaded(engine: Engine, scale: Scale): Ledger {
    Ledger(State(engine, Seed(scale), map[]), map[], map[], map[])
  }

  /** The session a step moves belongs to a live process. */
  predicate Live(s: Ledger, step: Step) {
    match step
    case Open(_, _) => false
    case Execute(id) => id in s.jobs
    case Commit(id) => id in s.jobs
    case Abort(id) => id in s.jobs
    case ServerCrash => true
  }

  /** One live process per writer id, with one transaction at a time; the reparse writer only on its first run. */
  ghost predicate CanMove(s: Ledger, m: Move, scale: Scale) {
    match m
    case Start(w) =>
      w < 100 && w !in s.procs && (w == REPARSE_WRITER ==> forall t :: t in s.log ==> t.writer != w)
    case Begin(id, job, _) =>
      var t := TagOf(job);
      && Valid(job, scale) && t.writer in s.procs && s.procs[t.writer] < t.sequence
      && id !in s.store.sessions && forall v :: v in s.jobs ==> TagOf(s.jobs[v]).writer != t.writer
    case Go(step) => Live(s, step) && Enabled(s.store, step)
    case Kill(w) => w in s.procs
    case Reap(id) => id in s.store.sessions && id !in s.jobs
  }

  /** The open transactions' batches once the store has moved to `store`. */
  function StillOpen(jobs: map<int, Job>, store: State): map<int, Job> {
    map id | id in jobs && id in store.sessions :: jobs[id]
  }

  ghost function Moved(s: Ledger, m: Move, scale: Scale): Ledger
    requires CanMove(s, m, scale)
  {
    match m
    case Start(w) => s.(procs := s.procs[w := NextSequence(s.store.committed, w)])
    case Begin(id, job, keep) =>
      ProgramIsWellFormed(job, s.store.engine, keep, scale);
      Ledger(Apply(s.store, Open(id, Program(job, s.store.engine, keep, scale))),
             s.procs[TagOf(job).writer := TagOf(job).sequence], s.jobs[id := job], s.log)
    case Go(step) =>
      var store := Apply(s.store, step);
      var log := if step.Commit? then s.log[TagOf(s.jobs[step.w]) := s.jobs[step.w]] else s.log;
      Ledger(store, s.procs, StillOpen(s.jobs, store), log)
    case Kill(w) =>
      s.(procs := s.procs - {w}, jobs := map id | id in s.jobs && TagOf(s.jobs[id]).writer != w :: s.jobs[id])
    case Reap(id) => s.(store := Apply(s.store, Abort(id)))
  }

  /** A schedule; a move that is not possible when its turn comes is passed over. */
  ghost function Moves(s: Ledger, ms: seq<Move>, scale: Scale): Ledger {
    if ms == [] then s else
      var before, last := Moves(s, ms[..|ms| - 1], scale), ms[|ms| - 1];
      if CanMove(before, last, scale) then Moved(before, last, scale) else before
  }

  /** The rows of the committed batches. */
  function LogRows(log: map<Tag, Job>, scale: Scale): set<Row> {
    set t, r | t in log && r in RowsOf(log[t], Size(log[t]), scale) :: r
  }

  /** The rows held by orphaned transactions. */
  function Orphaned(s: Ledger): set<Row> {
    Pending(s.store, s.store.sessions.Keys - s.jobs.Keys)
  }

  // --------------------------------------------------------- invariant

  /** The live transactions: valid batches under tags nobody has committed, one for each writer. */
  ghost predicate OpenWell(s: Ledger, scale: Scale) {
    && s.jobs.Keys <= s.store.sessions.Keys
    && (forall v, w :: v in s.jobs && w in s.jobs && TagOf(s.jobs[v]).writer == TagOf(s.jobs[w]).writer ==> v == w)
    && forall id :: id in s.jobs ==> WellOpen(s, id, scale)
  }

  ghost predicate WellOpen(s: Ledger, id: int, scale: Scale)
    requires id in s.jobs && id in s.store.sessions
  {
    var job := s.jobs[id];
    && Valid(job, scale) && TagOf(job) !in s.log
    && TagOf(job).writer in s.procs && TagOf(job).sequence <= s.procs[TagOf(job).writer]
    && Matches(s.store.sessions[id], job, s.store.engine, scale)
  }

  ghost predicate LogWell(s: Ledger, scale: Scale) {
    forall t :: t in s.log ==>
      && Valid(s.log[t], scale) && TagOf(s.log[t]) == t
      && (t.writer in s.procs ==> t.sequence <= s.procs[t.writer])
  }

  ghost predicate Sound(s: Ledger, scale: Scale) {
    && Discerning(s.store.engine) && Inv(s.store) && Coherent(World(s.store))
    && s.store.committed == Seed(scale) + LogRows(s.log, scale)
    && OpenWell(s, scale) && LogWell(s, scale)
  }

  /** The committed rows are the seed and the logged batches. */
  ghost predicate Quiet(db: set<Row>, log: map<Tag, Job>, scale: Scale) {
    && scale <= MAX_SCALE && db == Seed(scale) + LogRows(log, scale)
    && forall t :: t in log ==> Valid(log[t], scale) && TagOf(log[t]) == t
  }

  lemma SoundIsQuiet(s: Ledger, scale: Scale)
    requires scale <= MAX_SCALE && Sound(s, scale)
    ensures Quiet(s.store.committed, s.log, scale)
  {
    hide Inv, Discerning, Coherent, OpenWell, Seed, LogRows, Valid;
  }

  lemma ValidTags(job: Job, scale: Scale)
    requires scale <= MAX_SCALE && Valid(job, scale)
    ensures ValidTag(TagOf(job))
  {
  }

  // ------------------------------------------------------------- answers

  /** A live transaction that has a row to write. */
  ghost predicate Busy(s: Ledger, id: int, scale: Scale) {
    Sound(s, scale) && id in s.jobs && s.store.sessions[id].pc < |s.store.sessions[id].program|
  }

  /** The next row's place in its batch. */
  ghost function Next(s: Ledger, id: int, scale: Scale): (p: Place)
    requires Busy(s, id, scale)
    ensures InJob(s.jobs[id], p)
  {
    assert WellOpen(s, id, scale);
    NextStatement(s.store.sessions[id], s.jobs[id], s.store.engine, scale);
    PlaceAt(s.jobs[id], Dealt(s.store.sessions[id], s.jobs[id], s.store.engine))
  }

  ghost function NextRow(s: Ledger, id: int, scale: Scale): Row
    requires Busy(s, id, scale)
  {
    RowIn(s.jobs[id], Next(s, id, scale), scale)
  }

  lemma RowsApart(engine: Engine, job: Job, p: Place, other: Job, n: nat, q: Row, scale: Scale)
    requires Discerning(engine)
    requires scale <= MAX_SCALE && Valid(job, scale) && Valid(other, scale) && TagOf(job) != TagOf(other)
    requires InJob(job, p) && Kept(job, p) && q in RowsOf(other, n, scale)
    ensures !Clash(engine, RowIn(job, p, scale), q)
  {
    hide RowIn, Owns, Clash, PlaceAt, InJob, Discerning;
    var j: nat :| j < n && j < Size(other) && Kept(other, PlaceAt(other, j))
      && q == RowIn(other, PlaceAt(other, j), scale);
    ValidTags(job, scale);
    ValidTags(other, scale);
    OwnsItsRows(job, p, scale);
    OwnsItsRows(other, PlaceAt(other, j), scale);
    if Clash(engine, RowIn(job, p, scale), q) {
      TagsApart(engine, TagOf(job), RowIn(job, p, scale), TagOf(other), q);
    }
  }

  lemma OwnRowsApart(engine: Engine, job: Job, n: nat, q: Row, scale: Scale)
    requires Discerning(engine)
    requires n < Size(job) && Kept(job, PlaceAt(job, n)) && q in RowsOf(job, n, scale)
    ensures !Clash(engine, RowIn(job, PlaceAt(job, n), scale), q)
  {
    hide RowIn, PlaceAt, Kept, Size, InJob, Clash, Discerning;
    var j: nat :| j < n && j < Size(job) && Kept(job, PlaceAt(job, j)) && q == RowIn(job, PlaceAt(job, j), scale);
    PlacesDiffer(job, j, n);
    RowsDiffer(engine, job, PlaceAt(job, n), PlaceAt(job, j), scale);
  }

  lemma SeedRowsApart(engine: Engine, job: Job, p: Place, q: Row, scale: Scale)
    requires Discerning(engine)
    requires scale <= MAX_SCALE && Valid(job, scale) && InJob(job, p) && Kept(job, p) && q in Seed(scale)
    ensures !Clash(engine, RowIn(job, p, scale), q)
  {
    hide RowIn, Owns, SeedLike, Seed, Clash, InJob, Kept, Discerning;
    ValidTags(job, scale);
    OwnsItsRows(job, p, scale);
    SeedIsSeedLike(scale);
    SeedApart(engine, TagOf(job), RowIn(job, p, scale), q);
  }

  /** Nothing anywhere, committed or not, is in the way of the next row of a live batch, except orphans. */
  lemma NothingInTheWay(s: Ledger, id: int, q: Row, scale: Scale)
    requires scale <= MAX_SCALE && Busy(s, id, scale) && Kept(s.jobs[id], Next(s, id, scale))
    requires q in World(s.store) && Clash(s.store.engine, NextRow(s, id, scale), q)
    ensures q in Orphaned(s) && q !in View(s.store, id)
  {
    hide RowIn, RowsOf, Seed, Inv, Discerning, Coherent, Valid, InJob, Kept, PlaceAt, Size, Clash, Held, Matches;
    var job, p := s.jobs[id], Next(s, id, scale);
    assert WellOpen(s, id, scale);
    if q in Seed(scale) {
      SeedRowsApart(s.store.engine, job, p, q, scale);
    } else if q in LogRows(s.log, scale) {
      var t :| t in s.log && q in RowsOf(s.log[t], Size(s.log[t]), scale);
      RowsApart(s.store.engine, job, p, s.log[t], Size(s.log[t]), q, scale);
    } else if q in Held(s.store.sessions[id]) {
      HeldRows(s, id, scale);
      NextStatement(s.store.sessions[id], job, s.store.engine, scale);
      OwnRowsApart(s.store.engine, job, Dealt(s.store.sessions[id], job, s.store.engine), q, scale);
    } else {
      var v :| v in s.store.sessions && q in Held(s.store.sessions[v]);
      if v in s.jobs {
        assert WellOpen(s, v, scale);
        HeldRows(s, v, scale);
        RowsApart(s.store.engine, job, p, s.jobs[v], Dealt(s.store.sessions[v], s.jobs[v], s.store.engine), q, scale);
      }
    }
  }

  lemma HeldRows(s: Ledger, id: int, scale: Scale)
    requires id in s.jobs && id in s.store.sessions && WellOpen(s, id, scale)
    ensures var t := s.store.sessions[id];
            Held(t) == RowsOf(s.jobs[id], Dealt(t, s.jobs[id], s.store.engine), scale)
  {
    hide Held, RowsOf, Staged, Program;
  }

  lemma NextPosition(job: Job, n: nat)
    requires n < Size(job)
    ensures Position(job, PlaceAt(job, n)) == n
  {
    var m := Position(job, PlaceAt(job, n));
    if m < n {
      PlacesDiffer(job, m, n);
    } else if n < m {
      PlacesDiffer(job, n, m);
    }
  }

  lemma InView(s: Ledger, id: int, scale: Scale)
    requires Sound(s, scale) && id in s.jobs
    ensures Seed(scale) <= View(s.store, id)
    ensures var t := s.store.sessions[id];
            RowsOf(s.jobs[id], Dealt(t, s.jobs[id], s.store.engine), scale) <= View(s.store, id)
  {
    hide Held, RowsOf, Seed, LogRows, Inv, Discerning, Coherent, Matches;
    assert WellOpen(s, id, scale);
    HeldRows(s, id, scale);
  }

  lemma RefsInView(s: Ledger, id: int, k: Key, scale: Scale)
    requires Busy(s, id, scale) && Kept(s.jobs[id], Next(s, id, scale)) && k in Refs(NextRow(s, id, scale))
    ensures Has(View(s.store, id), k)
  {
    hide RowIn, RowsOf, Seed, Inv, Discerning, Coherent, Valid, InJob, Kept, PlaceAt, Size, Refs, Has, Matches, Held;
    var job, n := s.jobs[id], Dealt(s.store.sessions[id], s.jobs[id], s.store.engine);
    assert WellOpen(s, id, scale);
    InView(s, id, scale);
    NextStatement(s.store.sessions[id], job, s.store.engine, scale);
    RefsAvailable(job, PlaceAt(job, n), k, scale);
    NextPosition(job, n);
    if Has(Seed(scale), k) {
      HasMonotone(Seed(scale), View(s.store, id), k);
    } else {
      HasMonotone(RowsOf(job, n, scale), View(s.store, id), k);
    }
  }

  /** The answer to a statement whose row is fine, but for rows others hold. */
  lemma AnswerFine(engine: Engine, view: set<Row>, others: set<Row>, st: Statement)
    requires Checks(engine, st.row) && forall q :: q in view ==> !Clash(engine, st.row, q)
    requires forall k :: k in Refs(st.row) ==> Has(view, k)
    ensures Answer(engine, view, others, st)
         == if exists q :: q in others && Clash(engine, st.row, q) then Waits else Inserted
  {
    hide Checks, Refs, Has, PkOf;
    assert st.row.Observation? ==> forall q: Row :: q.Observation? && q.key == st.row.key ==> Clash(engine, st.row, q);
  }

  /** The next row of a live batch is stored, unless an orphan holds a row in its way: then it waits. */
  lemma NextIsInserted(s: Ledger, id: int, scale: Scale)
    requires scale <= MAX_SCALE && Busy(s, id, scale) && Kept(s.jobs[id], Next(s, id, scale))
    ensures Enabled(s.store, Execute(id)) && Current(s.store.sessions[id]).row == NextRow(s, id, scale)
    ensures AnswerTo(s.store, id) == Inserted
            || (AnswerTo(s.store, id) == Waits
                && exists q :: q in Orphaned(s) && Clash(s.store.engine, NextRow(s, id, scale), q))
  {
    hide RowIn, RowsOf, Seed, Inv, Discerning, Coherent, Valid, InJob, Kept, PlaceAt, Size, Refs, Has, Clash,
      Checks, Answer, Matches, Held, Dealt, LogRows;
    var row, others := NextRow(s, id, scale), Pending(s.store, s.store.sessions.Keys - {id});
    assert WellOpen(s, id, scale);
    NextStatement(s.store.sessions[id], s.jobs[id], s.store.engine, scale);
    RowChecks(s.store.engine, s.jobs[id], Next(s, id, scale), scale);
    ViewInWorld(s.store, id);
    WorldOfOne(s.store, id);
    forall q | q in World(s.store) && Clash(s.store.engine, row, q)
      ensures q in Orphaned(s) && q !in View(s.store, id)
    {
      NothingInTheWay(s, id, q, scale);
    }
    forall k | k in Refs(row)
      ensures Has(View(s.store, id), k)
    {
      RefsInView(s, id, k, scale);
    }
    AnswerFine(s.store.engine, View(s.store, id), others, Current(s.store.sessions[id]));
  }

  /** A reparsed observation meets its key: it is passed over, or ends the many-row statement. */
  lemma NextIsPassedOver(s: Ledger, id: int, scale: Scale)
    requires scale <= MAX_SCALE && Busy(s, id, scale) && !Kept(s.jobs[id], Next(s, id, scale))
    ensures Enabled(s.store, Execute(id))
    ensures AnswerTo(s.store, id) == if Current(s.store.sessions[id]).mode == InBatch then FallsBack else Skipped
  {
    hide RowsOf, Seed, Inv, Discerning, Coherent, PlaceAt, Refs, Has, Clash, Checks, ReparseObservation,
      Matches, Held, Dealt, Answer, LogRows;
    var job, p, t := s.jobs[id], Next(s, id, scale), s.store.sessions[id];
    assert WellOpen(s, id, scale);
    NextStatement(t, job, s.store.engine, scale);
    RowChecks(s.store.engine, job, p, scale);
    RowTable(job, p, scale);
    InView(s, id, scale);
    ReparseKeyHeld(s.store.engine, job.artifact, p.index, scale);
    KeyHeldMonotone(s.store.engine, Seed(scale), View(s.store, id), RowIn(job, p, scale).key);
    AnswerHeld(s.store.engine, View(s.store, id), Pending(s.store, s.store.sessions.Keys - {id}), Current(t));
  }

  lemma AnswerHeld(engine: Engine, view: set<Row>, others: set<Row>, st: Statement)
    requires st.row.Observation? && Checks(engine, st.row) && KeyHeld(engine, view, st.row.key) && st.mode != Plain
    ensures Answer(engine, view, others, st) == if st.mode == InBatch then FallsBack else Skipped
  {
    hide Checks;
    var q :| q in view && q.Observation? && Same(engine, q.key, st.row.key);
    assert Clash(engine, st.row, q);
  }

  // ------------------------------------------------- every move keeps it

  lemma ClosedWorld(s: State)
    requires Inv(s)
    ensures Closed(World(s))
  {
    forall r, k | r in World(s) && k in Refs(r)
      ensures Has(World(s), k)
    {
      if r in s.committed {
        HasMonotone(s.committed, World(s), k);
      } else {
        var w :| w in s.sessions && r in Held(s.sessions[w]);
        assert Closed(View(s, w));
        ViewInWorld(s, w);
        HasMonotone(View(s, w), World(s), k);
      }
    }
  }

  /** What each row of a live batch meets, on either engine. */
  lemma NextAnswer(s: Ledger, id: int, scale: Scale)
    requires scale <= MAX_SCALE && Busy(s, id, scale)
    ensures Enabled(s.store, Execute(id)) && Current(s.store.sessions[id]).row == NextRow(s, id, scale)
    ensures if !Kept(s.jobs[id], Next(s, id, scale)) then
              AnswerTo(s.store, id) == if Current(s.store.sessions[id]).mode == InBatch then FallsBack else Skipped
            else AnswerTo(s.store, id) == Inserted
                 || (AnswerTo(s.store, id) == Waits
                     && exists q :: q in Orphaned(s) && Clash(s.store.engine, NextRow(s, id, scale), q))
  {
    hide Kept, Inv, Discerning, Coherent, OpenWell, LogWell, LogRows, Answer, AnswerTo, Matches, PlaceAt, RowIn,
      Clash, Orphaned;
    if Kept(s.jobs[id], Next(s, id, scale)) {
      NextIsInserted(s, id, scale);
    } else {
      NextIsPassedOver(s, id, scale);
      CurrentRow(s, id, scale);
    }
  }

  lemma CurrentRow(s: Ledger, id: int, scale: Scale)
    requires Busy(s, id, scale)
    ensures Ready(s.store.sessions[id]) && Current(s.store.sessions[id]).row == NextRow(s, id, scale)
    ensures Current(s.store.sessions[id]).mode == InBatch && !Kept(s.jobs[id], Next(s, id, scale)) ==>
              s.store.sessions[id].fast == []
  {
    hide Inv, Discerning, Coherent, Matches, PlaceAt, RowIn, Kept;
    assert WellOpen(s, id, scale);
    NextStatement(s.store.sessions[id], s.jobs[id], s.store.engine, scale);
  }

  /** Inserting the next row keeps repeated columns in agreement. */
  lemma CoherentNext(s: Ledger, id: int, scale: Scale)
    requires scale <= MAX_SCALE && Busy(s, id, scale) && Kept(s.jobs[id], Next(s, id, scale))
    requires forall q :: q in World(s.store) ==> !Clash(s.store.engine, NextRow(s, id, scale), q)
    ensures Coherent(World(s.store) + {NextRow(s, id, scale)})
  {
    hide RowIn, RowsOf, Seed, Coherent, Valid, InJob, Kept, PlaceAt, Size, Refs, Has, Fits, Honoured, Closed, Matches,
      Held, Dealt, Staged, Clash, Unique, Checked, Discerning;
    var job, t, world := s.jobs[id], s.store.sessions[id], World(s.store);
    assert WellOpen(s, id, scale);
    NextStatement(t, job, s.store.engine, scale);
    ClosedWorld(s.store);
    UniqueOnPostgres(s.store.engine, world);
    NextPosition(job, Dealt(t, job, s.store.engine));
    InView(s, id, scale);
    ViewInWorld(s.store, id);
    FitsWhereItGoes(world, job, Next(s, id, scale), scale);
    NotHeld(s.store.engine, world, NextRow(s, id, scale));
    CoherentAdd(world, NextRow(s, id, scale));
  }

  lemma NotHeld(engine: Engine, db: set<Row>, row: Row)
    requires forall q :: q in db ==> !Clash(engine, row, q)
    ensures !Has(db, PkOf(row))
  {
  }

  /** Losing transactions, live or orphaned, keeps the ledger sound. */
  lemma DropKeepsSound(s: Ledger, s': Ledger, scale: Scale)
    requires Sound(s, scale) && s'.store.engine == s.store.engine && s'.store.committed == s.store.committed
    requires s'.log == s.log
    requires forall id :: id in s'.store.sessions ==>
               id in s.store.sessions && s'.store.sessions[id] == s.store.sessions[id]
    requires forall id :: id in s'.jobs ==>
               && id in s.jobs && s'.jobs[id] == s.jobs[id] && id in s'.store.sessions
               && TagOf(s.jobs[id]).writer in s'.procs
    requires forall w :: w in s'.procs ==> w in s.procs && s'.procs[w] == s.procs[w]
    ensures Sound(s', scale)
  {
    hide Inv, Discerning, Coherent, Matches, Valid, LogRows, Seed, OpenWell;
    Store.DropKeeps(s.store, s'.store);
    assert World(s'.store) <= World(s.store);
    CoherentSubset(World(s'.store), World(s.store));
    DropKeepsOpen(s, s', scale);
  }

  lemma KeysWithin(jobs: map<int, Job>, sessions: map<int, Session>)
    requires forall id :: id in jobs ==> id in sessions
    ensures jobs.Keys <= sessions.Keys
  {
    forall id | id in jobs.Keys
      ensures id in sessions.Keys
    {
    }
  }

  lemma DropKeepsOpen(s: Ledger, s': Ledger, scale: Scale)
    requires OpenWell(s, scale) && s'.store.engine == s.store.engine && s'.log == s.log
    requires forall id :: id in s'.store.sessions ==>
               id in s.store.sessions && s'.store.sessions[id] == s.store.sessions[id]
    requires forall id :: id in s'.jobs ==>
               && id in s.jobs && s'.jobs[id] == s.jobs[id] && id in s'.store.sessions
               && TagOf(s.jobs[id]).writer in s'.procs
    requires forall w :: w in s'.procs ==> w in s.procs && s'.procs[w] == s.procs[w]
    ensures OpenWell(s', scale)
  {
    hide Matches, Valid;
    KeysWithin(s'.jobs, s'.store.sessions);
    forall id | id in s'.jobs
      ensures WellOpen(s', id, scale)
    {
      assert WellOpen(s, id, scale);
    }
    forall v, w | v in s'.jobs && w in s'.jobs && TagOf(s'.jobs[v]).writer == TagOf(s'.jobs[w]).writer
      ensures v == w
    {
      assert v in s.jobs && w in s.jobs;
    }
  }

  lemma LogGrows(log: map<Tag, Job>, t: Tag, job: Job, scale: Scale)
    requires t !in log
    ensures LogRows(log[t := job], scale) == LogRows(log, scale) + RowsOf(job, Size(job), scale)
  {
    hide RowsOf, Size;
    var log' := log[t := job];
    forall r | r in LogRows(log, scale) + RowsOf(job, Size(job), scale)
      ensures r in LogRows(log', scale)
    {
      if r in RowsOf(job, Size(job), scale) {
        assert t in log' && log'[t] == job;
      } else {
        var u :| u in log && r in RowsOf(log[u], Size(log[u]), scale);
        assert u in log' && log'[u] == log[u];
      }
    }
  }

  /** The other live transactions after one of them has moved or gone. */
  lemma OthersWellOpen(s: Ledger, s': Ledger, id: int, scale: Scale)
    requires OpenWell(s, scale) && id in s.jobs && s'.store.engine == s.store.engine && s'.procs == s.procs
    requires forall v :: v in s'.jobs ==> v in s.jobs && s'.jobs[v] == s.jobs[v] && v in s'.store.sessions
    requires forall v :: v in s'.jobs && v != id ==> s'.store.sessions[v] == s.store.sessions[v]
    requires forall t :: t in s'.log ==> t in s.log || t == TagOf(s.jobs[id])
    ensures forall v :: v in s'.jobs && v != id ==> WellOpen(s', v, scale)
  {
    hide Matches, Valid;
    forall v | v in s'.jobs && v != id
      ensures WellOpen(s', v, scale)
    {
      assert WellOpen(s, v, scale);
    }
  }

  lemma CommitKeepsSound(s: Ledger, id: int, scale: Scale)
    requires Sound(s, scale) && CanMove(s, Go(Commit(id)), scale)
    ensures Sound(Moved(s, Go(Commit(id)), scale), scale)
  {
    hide Inv, Discerning, Coherent, RowsOf, Seed, Valid, LogRows, Size, Matches, Held, OpenWell;
    var s', job := Moved(s, Go(Commit(id)), scale), s.jobs[id];
    StepKeeps(s.store, Commit(id));
    assert World(s'.store) <= World(s.store);
    CoherentSubset(World(s'.store), World(s.store));
    FinishedRows(s, id, scale);
    LogGrows(s.log, TagOf(job), job, scale);
    CommitKeepsOpen(s, id, scale);
  }

  lemma CommitKeepsOpen(s: Ledger, id: int, scale: Scale)
    requires OpenWell(s, scale) && LogWell(s, scale) && CanMove(s, Go(Commit(id)), scale)
    ensures OpenWell(Moved(s, Go(Commit(id)), scale), scale) && LogWell(Moved(s, Go(Commit(id)), scale), scale)
  {
    hide Matches, Valid;
    assert WellOpen(s, id, scale);
    OthersWellOpen(s, Moved(s, Go(Commit(id)), scale), id, scale);
  }

  /** A transaction that is through holds all its batch's rows. */
  lemma FinishedRows(s: Ledger, id: int, scale: Scale)
    requires OpenWell(s, scale) && id in s.jobs && s.store.sessions[id].pc == |s.store.sessions[id].program|
    ensures Held(s.store.sessions[id]) == RowsOf(s.jobs[id], Size(s.jobs[id]), scale)
    ensures TagOf(s.jobs[id]) !in s.log
  {
    hide Held, RowsOf, Matches, Valid, Dealt;
    assert WellOpen(s, id, scale);
    HeldRows(s, id, scale);
    NextStatement(s.store.sessions[id], s.jobs[id], s.store.engine, scale);
    DealtBound(s.store.sessions[id], s.jobs[id], s.store.engine, scale);
  }

  lemma DealtBound(t: Session, job: Job, engine: Engine, scale: Scale)
    requires Matches(t, job, engine, scale)
    ensures Dealt(t, job, engine) <= Size(job)
  {
  }

  lemma ExecuteKeepsSound(s: Ledger, id: int, scale: Scale)
    requires scale <= MAX_SCALE && Sound(s, scale) && CanMove(s, Go(Execute(id)), scale)
    ensures Sound(Moved(s, Go(Execute(id)), scale), scale)
  {
    hide Inv, Discerning, Coherent, LogRows, Seed, OpenWell, LogWell, AnswerTo, Kept, PlaceAt;
    assert Busy(s, id, scale);
    NextAnswer(s, id, scale);
    if AnswerTo(s.store, id) == Waits {
      assert Moved(s, Go(Execute(id)), scale) == s by {
        StillAllOpen(s, scale);
      }
    } else {
      GoingOnKeepsSound(s, id, scale);
    }
  }

  lemma StillAllOpen(s: Ledger, scale: Scale)
    requires OpenWell(s, scale)
    ensures StillOpen(s.jobs, s.store) == s.jobs
  {
  }

  /** A live transaction goes on to its next row. */
  lemma GoingOnKeepsSound(s: Ledger, id: int, scale: Scale)
    requires scale <= MAX_SCALE && Busy(s, id, scale) && Enabled(s.store, Execute(id))
    requires AnswerTo(s.store, id) != Waits
    ensures CanMove(s, Go(Execute(id)), scale) && Sound(Moved(s, Go(Execute(id)), scale), scale)
  {
    hide Inv, Discerning, Coherent, LogRows, Seed, OpenWell, LogWell, AnswerTo, Kept, PlaceAt, Advance, Current;
    var s' := Moved(s, Go(Execute(id)), scale);
    NextAnswer(s, id, scale);
    StepKeeps(s.store, Execute(id));
    WorldStaysCoherent(s, id, scale);
    GoingOnKeepsOpen(s, id, scale);
  }

  lemma WorldStaysCoherent(s: Ledger, id: int, scale: Scale)
    requires scale <= MAX_SCALE && Busy(s, id, scale) && Enabled(s.store, Execute(id))
    requires AnswerTo(s.store, id) != Waits
    ensures Coherent(World(Apply(s.store, Execute(id))))
  {
    hide Coherent, LogRows, Seed, OpenWell, LogWell, AnswerTo, Kept, PlaceAt, Advance, Honoured, Closed, Staged, RowIn;
    NextAnswer(s, id, scale);
    if AnswerTo(s.store, id) == Inserted {
      InsertedWorld(s.store, id);
      CoherentNext(s, id, scale);
    } else {
      PassedWorld(s.store, id);
      CoherentSubset(World(Apply(s.store, Execute(id))), World(s.store));
    }
  }

  lemma GoingOnKeepsOpen(s: Ledger, id: int, scale: Scale)
    requires scale <= MAX_SCALE && Busy(s, id, scale) && Enabled(s.store, Execute(id))
    requires AnswerTo(s.store, id) != Waits
    ensures OpenWell(Moved(s, Go(Execute(id)), scale), scale)
    ensures LogWell(Moved(s, Go(Execute(id)), scale), scale)
  {
    hide Inv, Discerning, Coherent, LogRows, Seed, AnswerTo, Kept, PlaceAt, Matches, Valid, Advance;
    var s', t, job := Moved(s, Go(Execute(id)), scale), s.store.sessions[id], s.jobs[id];
    NextAnswer(s, id, scale);
    assert WellOpen(s, id, scale);
    NextStatement(t, job, s.store.engine, scale);
    Progress(t, job, s.store.engine, AnswerTo(s.store, id), scale);
    StillAllOpen(s, scale);
    assert s'.jobs == s.jobs;
    OthersWellOpen(s, s', id, scale);
    assert WellOpen(s', id, scale);
  }

  lemma BeginKeepsSound(s: Ledger, id: int, job: Job, keep: nat, scale: Scale)
    requires Sound(s, scale) && CanMove(s, Begin(id, job, keep), scale)
    ensures Sound(Moved(s, Begin(id, job, keep), scale), scale)
  {
    hide Inv, Discerning, Coherent, Seed, Valid, LogRows, Matches, Program, WellFormed;
    var s', program := Moved(s, Begin(id, job, keep), scale), Program(job, s.store.engine, keep, scale);
    ProgramIsWellFormed(job, s.store.engine, keep, scale);
    StepKeeps(s.store, Open(id, program));
    OpenKeeps(s.store, id, program);
    OpenedMatches(job, s.store.engine, keep, scale);
    forall v | v in s'.jobs
      ensures WellOpen(s', v, scale)
    {
      if v != id {
        assert WellOpen(s, v, scale);
      }
    }
  }

  /** A committed batch left its run behind, so a restarted writer goes on after it. */
  lemma LoggedRun(db: set<Row>, log: map<Tag, Job>, t: Tag, scale: Scale)
    requires Quiet(db, log, scale) && t in log && t.writer != REPARSE_WRITER
    ensures t.sequence <= NextSequence(db, t.writer)
  {
    hide Seed;
    var job := log[t];
    ValidTags(job, scale);
    var run := RunRow(job.order);
    assert RowIn(job, PlaceAt(job, 0), scale) == run;
    assert run in RowsOf(job, Size(job), scale);
    assert run in RunsOf(db, t.writer);
  }

  lemma StartKeepsSound(s: Ledger, w: nat, scale: Scale)
    requires scale <= MAX_SCALE && Sound(s, scale) && CanMove(s, Start(w), scale)
    ensures Sound(Moved(s, Start(w), scale), scale)
  {
    hide Inv, Discerning, Coherent, Seed, Valid, LogRows, Matches, NextSequence, Quiet;
    SoundIsQuiet(s, scale);
    forall t | t in s.log && t.writer == w
      ensures t.sequence <= NextSequence(s.store.committed, w)
    {
      LoggedRun(s.store.committed, s.log, t, scale);
    }
    var s' := Moved(s, Start(w), scale);
    forall id | id in s'.jobs
      ensures WellOpen(s', id, scale)
    {
      assert WellOpen(s, id, scale);
    }
  }

  lemma MoveKeepsSound(s: Ledger, m: Move, scale: Scale)
    requires scale <= MAX_SCALE && Sound(s, scale) && CanMove(s, m, scale)
    ensures Sound(Moved(s, m, scale), scale)
  {
    hide Sound;
    match m
    case Start(w) => StartKeepsSound(s, w, scale);
    case Begin(id, job, keep) => BeginKeepsSound(s, id, job, keep, scale);
    case Go(Execute(id)) => ExecuteKeepsSound(s, id, scale);
    case Go(Commit(id)) => CommitKeepsSound(s, id, scale);
    case _ => LossKeepsSound(s, m, scale);
  }

  lemma LossKeepsSound(s: Ledger, m: Move, scale: Scale)
    requires Sound(s, scale) && CanMove(s, m, scale)
    requires m.Kill? || m.Reap? || (m.Go? && (m.step.Abort? || m.step.ServerCrash?))
    ensures Sound(Moved(s, m, scale), scale)
  {
    hide Inv, Discerning, Coherent, Seed, Valid, LogRows, Matches;
    forall id | id in s.jobs
      ensures TagOf(s.jobs[id]).writer in s.procs
    {
      assert WellOpen(s, id, scale);
    }
    DropKeepsSound(s, Moved(s, m, scale), scale);
  }

  lemma LoadedSound(engine: Engine, scale: Scale)
    requires Discerning(engine) && scale <= MAX_SCALE
    ensures Sound(Loaded(engine, scale), scale)
  {
    hide Seed, Coherent, Consistent;
    SeedConsistent(engine, scale);
    SeedCoherent(scale);
    assert World(Loaded(engine, scale).store) == Seed(scale);
    StartHolds(engine, Seed(scale));
  }

  lemma SameServer(s: Ledger, m: Move, scale: Scale)
    requires CanMove(s, m, scale)
    ensures Moved(s, m, scale).store.engine == s.store.engine
  {
    hide Program, NextSequence, Valid;
  }

  lemma {:induction false} MovesKeepSound(s: Ledger, ms: seq<Move>, scale: Scale)
    requires scale <= MAX_SCALE && Sound(s, scale)
    ensures Sound(Moves(s, ms, scale), scale) && Moves(s, ms, scale).store.engine == s.store.engine
  {
    hide Sound, CanMove, Moved;
    if ms != [] {
      var front, last := ms[..|ms| - 1], ms[|ms| - 1];
      MovesKeepSound(s, front, scale);
      if CanMove(Moves(s, front, scale), last, scale) {
        MoveKeepsSound(Moves(s, front, scale), last, scale);
        SameServer(Moves(s, front, scale), last, scale);
      }
    }
  }

  // ---------------------------------------------------------- theorems

  /** The states the ledger can get to. */
  ghost function After(ms: seq<Move>, engine: Engine, scale: Scale): Ledger {
    Moves(Loaded(engine, scale), ms, scale)
  }

  lemma AfterIsSound(ms: seq<Move>, engine: Engine, scale: Scale)
    requires Discerning(engine) && scale <= MAX_SCALE
    ensures Sound(After(ms, engine, scale), scale) && After(ms, engine, scale).store.engine == engine
  {
    hide Discerning, Sound, Moved, CanMove;
    LoadedSound(engine, scale);
    MovesKeepSound(Loaded(engine, scale), ms, scale);
  }

  lemma SoundParts(s: Ledger, scale: Scale)
    requires Sound(s, scale)
    ensures Consistent(s.store.engine, s.store.committed) && Coherent(s.store.committed)
    ensures s.store.committed == Seed(scale) + LogRows(s.log, scale)
  {
    hide Coherent, Seed, LogRows, Honoured, Staged;
    CoherentSubset(s.store.committed, World(s.store));
  }

  /**
   * On either engine, whatever the interleaving of batches, commits, aborts, crashes, orphaned
   * transactions and restarts: the committed tables satisfy every constraint, their repeated columns
   * agree, they hold the seed and exactly the batches that committed, each of them whole, and nothing
   * of any other.
   */
  lemma EveryRunIsSound(ms: seq<Move>, engine: Engine, scale: Scale)
    requires Discerning(engine) && scale <= MAX_SCALE
    ensures var s := After(ms, engine, scale);
            && Consistent(engine, s.store.committed) && Coherent(s.store.committed)
            && s.store.committed == Seed(scale) + LogRows(s.log, scale)
  {
    hide Sound, After, LogRows, Seed;
    AfterIsSound(ms, engine, scale);
    SoundParts(After(ms, engine, scale), scale);
  }

  /**
   * No row of a live batch is ever refused. It is stored; or it is a reparsed observation, which is
   * passed over, or sends MariaDB's many-row statement to its savepoint loop; or it waits, but only
   * for a row that an orphaned transaction still holds.
   */
  lemma NoBatchIsRejected(ms: seq<Move>, id: int, engine: Engine, scale: Scale)
    requires Discerning(engine) && scale <= MAX_SCALE
    ensures var s := After(ms, engine, scale);
            id in s.jobs && Enabled(s.store, Execute(id)) ==>
              var row := Current(s.store.sessions[id]).row;
              && (s.jobs[id].Reparse? && row.Observation? ==> AnswerTo(s.store, id) in {Skipped, FallsBack})
              && (!(s.jobs[id].Reparse? && row.Observation?) ==> AnswerTo(s.store, id) in {Inserted, Waits})
              && (AnswerTo(s.store, id) == Waits ==> exists q :: q in Orphaned(s) && Clash(engine, row, q))
  {
    hide After, AnswerTo, Inv, Discerning, Coherent, Seed, LogRows, LogWell, OpenWell, PlaceAt, RowIn, Clash, Orphaned;
    AfterIsSound(ms, engine, scale);
    var s := After(ms, engine, scale);
    if id in s.jobs && Enabled(s.store, Execute(id)) {
      assert Busy(s, id, scale);
      NextAnswer(s, id, scale);
      RowTable(s.jobs[id], Next(s, id, scale), scale);
    }
  }

  // ------------------------------------------------------- a whole batch

  /** A live transaction writing its batch, with no orphan about. */
  ghost predicate Writes(s: Ledger, id: int, job: Job, scale: Scale) {
    Sound(s, scale) && id in s.jobs && s.jobs[id] == job && s.jobs.Keys == s.store.sessions.Keys
  }

  function Executes(id: int, n: nat): seq<Move> {
    seq(n, i => Go(Execute(id)))
  }

  /** What is left to do: two for every row, and one less once in the loop. */
  ghost function Left(s: Ledger, id: int, job: Job, scale: Scale): nat
    requires Writes(s, id, job, scale)
  {
    assert WellOpen(s, id, scale);
    LeftIsNatural(s.store.sessions[id], job, s.store.engine, scale);
    var t := s.store.sessions[id];
    2 * (Size(job) - Dealt(t, job, s.store.engine)) - if t.stage.Looping? then 1 else 0
  }

  lemma LeftIsNatural(t: Session, job: Job, engine: Engine, scale: Scale)
    requires Matches(t, job, engine, scale)
    ensures Dealt(t, job, engine) <= Size(job)
    ensures t.stage.Looping? ==> Dealt(t, job, engine) < Size(job)
  {
    hide Dealt, Size, Program, OnTrack;
    NextStatement(t, job, engine, scale);
  }

  lemma {:induction false} ExecutesGoThrough(s: Ledger, id: int, job: Job, scale: Scale) returns (n: nat)
    requires scale <= MAX_SCALE && Writes(s, id, job, scale)
    ensures var t := Moves(s, Executes(id, n), scale);
            && Writes(t, id, job, scale) && t.log == s.log && t.jobs == s.jobs && t.procs == s.procs
            && t.store.sessions[id].pc == |t.store.sessions[id].program|
    decreases Left(s, id, job, scale)
  {
    hide Sound, Size, CanMove, Moved, WellOpen;
    if Finished(s, id) {
      n := 0;
      NeverPastTheEnd(s, id, job, scale);
      assert Executes(id, 0) == [];
      assert Moves(s, [], scale) == s;
    } else {
      ExecuteGoesOn(s, id, job, scale);
      var m := ExecutesGoThrough(Moved(s, Go(Execute(id)), scale), id, job, scale);
      n := m + 1;
      assert Executes(id, n) == [Go(Execute(id))] + Executes(id, m);
      FirstMove(s, Go(Execute(id)), scale);
      MovesAppend(s, [Go(Execute(id))], Executes(id, m), scale);
    }
  }

  lemma NeverPastTheEnd(s: Ledger, id: int, job: Job, scale: Scale)
    requires Writes(s, id, job, scale)
    ensures s.store.sessions[id].pc <= |s.store.sessions[id].program|
  {
    hide Coherent, OpenWell, LogWell, LogRows, Seed, Honoured, Closed;
  }

  predicate Finished(s: Ledger, id: int)
    requires id in s.store.sessions
  {
    s.store.sessions[id].pc >= |s.store.sessions[id].program|
  }

  lemma ExecuteGoesOn(s: Ledger, id: int, job: Job, scale: Scale)
    requires scale <= MAX_SCALE && Writes(s, id, job, scale) && !Finished(s, id)
    ensures CanMove(s, Go(Execute(id)), scale)
    ensures var t := Moved(s, Go(Execute(id)), scale);
            && Writes(t, id, job, scale) && t.log == s.log && t.jobs == s.jobs && t.procs == s.procs
            && Left(t, id, job, scale) < Left(s, id, job, scale)
  {
    hide Inv, Discerning, Coherent, Seed, LogRows, LogWell, Valid, Kept, PlaceAt, AnswerTo, Advance, Matches,
      Dealt, Size;
    assert Busy(s, id, scale) && WellOpen(s, id, scale);
    NextAnswer(s, id, scale);
    assert Orphaned(s) == {};
    GoingOnKeepsSound(s, id, scale);
    StillAllOpen(s, scale);
    NextStatement(s.store.sessions[id], job, s.store.engine, scale);
    Progress(s.store.sessions[id], job, s.store.engine, AnswerTo(s.store, id), scale);
    StageAfter(s.store.sessions[id], AnswerTo(s.store, id));
  }

  lemma StageAfter(t: Session, o: Outcome)
    requires Ready(t) && o in {Inserted, Skipped, FallsBack}
    ensures o == FallsBack && Current(t).mode == InBatch ==> t.stage.Trying? && Advance(t, o).stage.Looping?
  {
  }

  /** A batch that is begun and left alone gets through and is committed, on either engine. */
  lemma BatchCommits(s: Ledger, id: int, job: Job, keep: nat, scale: Scale) returns (n: nat)
    requires scale <= MAX_SCALE && Sound(s, scale) && CanMove(s, Begin(id, job, keep), scale)
    requires s.jobs.Keys == s.store.sessions.Keys
    ensures var t := Moves(s, Whole(id, job, keep, n), scale);
            && t.log == s.log[TagOf(job) := job] && t.procs == s.procs[TagOf(job).writer := TagOf(job).sequence]
            && t.jobs == s.jobs && t.jobs.Keys == t.store.sessions.Keys
  {
    hide Sound, Valid, Program;
    var begun := Moved(s, Begin(id, job, keep), scale);
    MoveKeepsSound(s, Begin(id, job, keep), scale);
    assert Writes(begun, id, job, scale);
    assert begun.jobs - {id} == s.jobs;
    hide CanMove, Moved;
    n := ExecutesGoThrough(begun, id, job, scale);
    var done := Moves(begun, Executes(id, n), scale);
    FirstMove(s, Begin(id, job, keep), scale);
    MovesAppend(s, [Begin(id, job, keep)], Executes(id, n), scale);
    CommitLogs(done, id, job, scale);
    FirstMove(done, Go(Commit(id)), scale);
    MovesAppend(s, [Begin(id, job, keep)] + Executes(id, n), [Go(Commit(id))], scale);
  }

  /** A transaction from its first move to its last. */
  function Whole(id: int, job: Job, keep: nat, n: nat): seq<Move> {
    [Begin(id, job, keep)] + Executes(id, n) + [Go(Commit(id))]
  }

  lemma CommitLogs(s: Ledger, id: int, job: Job, scale: Scale)
    requires Writes(s, id, job, scale) && s.store.sessions[id].pc == |s.store.sessions[id].program|
    ensures CanMove(s, Go(Commit(id)), scale)
    ensures var t := Moved(s, Go(Commit(id)), scale);
            && t.log == s.log[TagOf(job) := job] && t.jobs == s.jobs - {id} && t.procs == s.procs
            && t.jobs.Keys == t.store.sessions.Keys
  {
    hide Inv, Discerning, Coherent, Seed, LogRows, Valid;
    var t := Moved(s, Go(Commit(id)), scale);
    assert t.store.sessions == s.store.sessions - {id};
    assert t.jobs == s.jobs - {id};
  }

  lemma FirstMove(s: Ledger, m: Move, scale: Scale)
    requires CanMove(s, m, scale)
    ensures Moves(s, [m], scale) == Moved(s, m, scale)
  {
    hide CanMove, Moved;
    assert [m][..0] == [];
  }

  lemma {:induction false} MovesAppend(s: Ledger, a: seq<Move>, b: seq<Move>, scale: Scale)
    ensures Moves(s, a + b, scale) == Moves(Moves(s, a, scale), b, scale)
  {
    if b == [] {
      assert a + b == a;
    } else {
      var front := b[..|b| - 1];
      assert (a + b)[..|a + b| - 1] == a + front;
      hide CanMove, Moved;
      MovesAppend(s, a, front, scale);
    }
  }

  /** `after` is `before` and these batches. */
  ghost predicate Logs(before: map<Tag, Job>, jobs: map<int, Job>, after: map<Tag, Job>) {
    && (forall t :: t in after ==> t in before || exists id :: id in jobs && TagOf(jobs[id]) == t)
    && (forall t :: t in before ==> t in after && after[t] == before[t])
    && forall id :: id in jobs ==> TagOf(jobs[id]) in after && after[TagOf(jobs[id])] == jobs[id]
  }

  /** The tags of live batches are new, and differ. */
  lemma LiveTags(s: Ledger, scale: Scale)
    requires Sound(s, scale)
    ensures forall id :: id in s.jobs ==> TagOf(s.jobs[id]) !in s.log
    ensures forall v, w :: v in s.jobs && w in s.jobs && TagOf(s.jobs[v]) == TagOf(s.jobs[w]) ==> v == w
  {
    hide Inv, Discerning, Coherent, Seed, LogRows, LogWell, Valid, Matches;
    forall id | id in s.jobs
      ensures TagOf(s.jobs[id]) !in s.log
    {
      assert WellOpen(s, id, scale);
    }
  }

  /** One batch more, and then the others. */
  lemma LogsStep(log: map<Tag, Job>, jobs: map<int, Job>, id: int, after: map<Tag, Job>)
    requires id in jobs && forall v :: v in jobs ==> TagOf(jobs[v]) !in log
    requires forall v :: v in jobs && TagOf(jobs[v]) == TagOf(jobs[id]) ==> v == id
    requires Logs(log[TagOf(jobs[id]) := jobs[id]], jobs - {id}, after)
    ensures Logs(log, jobs, after)
  {
    var mid := log[TagOf(jobs[id]) := jobs[id]];
    assert forall t :: t in mid ==> t in log || t == TagOf(jobs[id]);
    assert forall t :: t in log ==> t in mid && mid[t] == log[t];
    assert TagOf(jobs[id]) in mid;
    assert forall v :: v in jobs ==> v == id || v in jobs - {id};
  }

  lemma SomeJob(jobs: map<int, Job>, sessions: map<int, Session>) returns (open: bool, id: int)
    requires jobs.Keys == sessions.Keys
    ensures if open then id in jobs else sessions == map[]
  {
    open, id := false, 0;
    if i :| i in jobs {
      open, id := true, i;
    } else {
      KeysWithin(jobs, map[]);
      assert sessions.Keys == {};
    }
  }

  lemma SomeOrphan(jobs: map<int, Job>, sessions: map<int, Session>) returns (some: bool, id: int)
    requires jobs.Keys <= sessions.Keys
    ensures if some then id in sessions && id !in jobs else jobs.Keys == sessions.Keys
  {
    some, id := false, 0;
    if i :| i in sessions && i !in jobs {
      some, id := true, i;
    } else {
      forall i | i in sessions.Keys
        ensures i in jobs.Keys
      {
      }
      assert sessions.Keys <= jobs.Keys;
    }
  }

  /** With no orphan about, the live batches can be finished and committed one after the other. */
  lemma {:induction false} LiveBatchesCommit(s: Ledger, scale: Scale) returns (ms: seq<Move>)
    requires scale <= MAX_SCALE && Sound(s, scale) && s.jobs.Keys == s.store.sessions.Keys
    ensures var t := Moves(s, ms, scale); t.store.sessions == map[] && Logs(s.log, s.jobs, t.log)
    decreases |s.jobs|
  {
    hide Sound, CanMove, Moved;
    var open, id := SomeJob(s.jobs, s.store.sessions);
    if !open {
      ms := [];
    } else {
      var job := s.jobs[id];
      LiveTags(s, scale);
      var n := ExecutesGoThrough(s, id, job, scale);
      var done := Moves(s, Executes(id, n), scale);
      CommitLogs(done, id, job, scale);
      MoveKeepsSound(done, Go(Commit(id)), scale);
      var next := Moved(done, Go(Commit(id)), scale);
      assert next.jobs.Keys == s.jobs.Keys - {id} && |next.jobs.Keys| < |s.jobs.Keys|;
      var rest := LiveBatchesCommit(next, scale);
      FirstMove(done, Go(Commit(id)), scale);
      ms := Executes(id, n) + ([Go(Commit(id))] + rest);
      MovesAppend(done, [Go(Commit(id))], rest, scale);
      MovesAppend(s, Executes(id, n), [Go(Commit(id))] + rest, scale);
      LogsStep(s.log, s.jobs, id, Moves(next, rest, scale).log);
    }
  }

  lemma ReapOne(s: Ledger, id: int, scale: Scale)
    requires scale <= MAX_SCALE && Sound(s, scale) && id in s.store.sessions && id !in s.jobs
    ensures CanMove(s, Reap(id), scale)
    ensures var t := Moved(s, Reap(id), scale);
            && Sound(t, scale) && t.jobs == s.jobs && t.log == s.log && t.procs == s.procs
            && t.store.sessions == s.store.sessions - {id}
  {
    hide Sound;
    MoveKeepsSound(s, Reap(id), scale);
  }

  /** The server rolls the orphans back. */
  lemma {:induction false} OrphansGo(s: Ledger, scale: Scale) returns (ms: seq<Move>)
    requires scale <= MAX_SCALE && Sound(s, scale)
    ensures var t := Moves(s, ms, scale);
            && Sound(t, scale) && t.jobs == s.jobs && t.log == s.log && t.procs == s.procs
            && t.jobs.Keys == t.store.sessions.Keys && forall m :: m in ms ==> m.Reap?
    decreases |s.store.sessions|
  {
    JobsAreOpen(s, scale);
    hide Sound, CanMove, Moved;
    var some, id := SomeOrphan(s.jobs, s.store.sessions);
    if some {
      ReapOne(s, id, scale);
      var next := Moved(s, Reap(id), scale);
      assert next.store.sessions.Keys == s.store.sessions.Keys - {id};
      assert |next.store.sessions.Keys| < |s.store.sessions.Keys|;
      var rest := OrphansGo(next, scale);
      ms := [Reap(id)] + rest;
      FirstMove(s, Reap(id), scale);
      MovesAppend(s, [Reap(id)], rest, scale);
    } else {
      ms := [];
    }
  }

  lemma JobsAreOpen(s: Ledger, scale: Scale)
    requires Sound(s, scale)
    ensures s.jobs.Keys <= s.store.sessions.Keys
  {
    hide Inv, Discerning, Coherent, Seed, LogRows, LogWell, Valid, Matches;
  }

  /**
   * From every reachable state the server can get rid of the orphans and every live batch can get
   * through: then nothing is open, and the log is what it was and these batches.
   */
  lemma EveryLiveBatchCanCommit(ms: seq<Move>, engine: Engine, scale: Scale)
    requires Discerning(engine) && scale <= MAX_SCALE
    ensures var s := After(ms, engine, scale);
            exists more :: var t := Moves(s, more, scale);
                           t.store.sessions == map[] && Logs(s.log, s.jobs, t.log)
  {
    hide After, Sound, CanMove, Moved, Logs;
    AfterIsSound(ms, engine, scale);
    var s := After(ms, engine, scale);
    var reaps := OrphansGo(s, scale);
    var t := Moves(s, reaps, scale);
    var commits := LiveBatchesCommit(t, scale);
    MovesAppend(s, reaps, commits, scale);
  }

  /**
   * In every reachable state the trace of a stored observation is one line, ending at the artifact
   * and the source the observation itself names.
   */
  lemma TraceIsAlwaysOneLine(ms: seq<Move>, engine: Engine, scale: Scale, o: Row)
    requires Discerning(engine) && scale <= MAX_SCALE && o.Observation?
    ensures var db := After(ms, engine, scale).store.committed;
            o in db ==> exists l :: Joins(db, o, l) && EndsAtItsOwn(l, o) && forall m :: Joins(db, o, m) ==> m == l
  {
    hide Sound, After, Joins, Consistent, Coherent;
    EveryRunIsSound(ms, engine, scale);
    if o in After(ms, engine, scale).store.committed {
      var l := TraceIsOneLine(engine, After(ms, engine, scale).store.committed, o);
    }
  }

  // --------------------------------------------------------- restarting

  /** `next_sequence` is the highest sequence number that writer committed, and 0 before the first. */
  lemma RestartsAfterTheLast(ms: seq<Move>, w: nat, engine: Engine, scale: Scale)
    requires Discerning(engine) && scale <= MAX_SCALE && w < 100 && w != REPARSE_WRITER
    ensures var s := After(ms, engine, scale);
            var last := NextSequence(s.store.committed, w);
            && (forall t :: t in s.log && t.writer == w ==> t.sequence <= last)
            && (last == 0 || Tag(w, last) in s.log)
  {
    hide After, Sound;
    AfterIsSound(ms, engine, scale);
    var s := After(ms, engine, scale);
    hide *;
    SoundIsQuiet(s, scale);
    forall t | t in s.log && t.writer == w
      ensures t.sequence <= NextSequence(s.store.committed, w)
    {
      LoggedRun(s.store.committed, s.log, t, scale);
    }
    LastIsLogged(s.store.committed, s.log, w, scale);
  }

  lemma LastIsLogged(db: set<Row>, log: map<Tag, Job>, w: nat, scale: Scale)
    requires Quiet(db, log, scale) && w < 100
    ensures var last := NextSequence(db, w);
            last == 0 || (w != REPARSE_WRITER && Tag(w, last) in log)
  {
    hide Seed, LogRows, Quiet;
    if RunsOf(db, w) != {} {
      var r :| r in RunsOf(db, w) && r.id == Id(IngestRunT, w, NextSequence(db, w));
      RunIsLogged(db, log, r, w, scale);
    }
  }

  /** A run in a writer's range was written by a committed batch of that writer. */
  lemma RunIsLogged(db: set<Row>, log: map<Tag, Job>, r: Row, w: nat, scale: Scale)
    requires Quiet(db, log, scale) && w < 100 && r in RunsOf(db, w)
    ensures w != REPARSE_WRITER && r.id >= Id(IngestRunT, w, 0) && Tag(w, r.id - Id(IngestRunT, w, 0)) in log
  {
    hide Seed, RowsOf, RowIn, Size;
    SeedIsSeedLike(scale);
    assert r !in Seed(scale);
    var t :| t in log && r in RowsOf(log[t], Size(log[t]), scale);
    ValidTags(log[t], scale);
    RowIsOwned(log[t], Size(log[t]), r, scale);
  }

  lemma RowIsOwned(job: Job, n: nat, r: Row, scale: Scale)
    requires Valid(job, scale) && r in RowsOf(job, n, scale)
    ensures Owns(TagOf(job), r)
  {
    hide RowIn, PlaceAt, Kept, InJob, Size, Valid;
    var j: nat :| j < n && j < Size(job) && Kept(job, PlaceAt(job, j)) && r == RowIn(job, PlaceAt(job, j), scale);
    OwnsItsRows(job, PlaceAt(job, j), scale);
  }

  /**
   * Reparsing writes no runs, so its writer always starts over from 0; an artifact that was
   * reparsed before is then refused at the first row, whatever else is going on.
   */
  lemma SecondReparseIsRefused(ms: seq<Move>, artifact: nat, others: set<Row>, engine: Engine, scale: Scale)
    requires Discerning(engine) && scale <= MAX_SCALE
    ensures var db := After(ms, engine, scale).store.committed;
            && NextSequence(db, REPARSE_WRITER) == 0
            && (TagOf(Reparse(artifact)) in After(ms, engine, scale).log ==>
                  Answer(engine, db, others, Statement(LineOf(Reparse(artifact), 0, scale), Plain))
                  == Rejected(Duplicate))
  {
    hide After, Inv, Discerning, Coherent, OpenWell, Seed, ReparseObservation;
    AfterIsSound(ms, engine, scale);
    var s := After(ms, engine, scale);
    SoundIsQuiet(s, scale);
    LastIsLogged(s.store.committed, s.log, REPARSE_WRITER, scale);
    var t := TagOf(Reparse(artifact));
    if t in s.log {
      SameReparse(s.log[t], artifact, scale);
      var first := RowIn(s.log[t], PlaceAt(s.log[t], 0), scale);
      assert first in RowsOf(s.log[t], Size(s.log[t]), scale);
      assert first in s.store.committed && Clash(engine, first, first);
    }
  }

  lemma SameReparse(job: Job, artifact: nat, scale: Scale)
    requires Valid(job, scale) && TagOf(job) == TagOf(Reparse(artifact))
    ensures job == Reparse(artifact)
  {
  }
}

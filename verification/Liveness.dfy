/**
 * What can always still be done: from any state a writer can be started, resumes after its last
 * committed batch, and gets its next batches written (workload.py, ingest.py, crash.py).
 */
module Liveness {
  import opened Schema
  import opened Collation
  import opened Store
  import opened Generate
  import opened Trace
  import opened Workload
  import opened Spaces
  import opened Jobs
  import opened Programs
  import opened Ledger

  // ------------------------------------------------------------ starting

  /**
   * A process that is started resumes at a sequence number its writer committed, or at 0, and no
   * batch of that writer lies above; no other process notices.
   */
  lemma ResumesAfterTheLast(ms: seq<Move>, w: nat, engine: Engine, scale: Scale)
    requires Discerning(engine) && scale <= MAX_SCALE
    ensures var s := After(ms, engine, scale);
            CanMove(s, Start(w), scale) ==>
              var t := Moved(s, Start(w), scale);
              && w in t.procs && (t.procs[w] == 0 || (t.procs[w] > 0 && Tag(w, t.procs[w]) in s.log))
              && (forall u :: u in s.log && u.writer == w ==> u.sequence <= t.procs[w])
              && t.procs - {w} == s.procs && t.store == s.store && t.jobs == s.jobs && t.log == s.log
  {
    hide After, Sound;
    AfterIsSound(ms, engine, scale);
    var s := After(ms, engine, scale);
    if CanMove(s, Start(w), scale) {
      StartResumes(s, w, scale);
    }
  }

  lemma StartResumes(s: Ledger, w: nat, scale: Scale)
    requires scale <= MAX_SCALE && Sound(s, scale) && CanMove(s, Start(w), scale)
    ensures var t := Moved(s, Start(w), scale);
            && w in t.procs && (t.procs[w] == 0 || (t.procs[w] > 0 && Tag(w, t.procs[w]) in s.log))
            && (forall u :: u in s.log && u.writer == w ==> u.sequence <= t.procs[w])
            && t.procs - {w} == s.procs && t.store == s.store && t.jobs == s.jobs && t.log == s.log
  {
    hide Sound, Quiet, NextSequence;
    SoundIsQuiet(s, scale);
    LastIsLogged(s.store.committed, s.log, w, scale);
    forall u | u in s.log && u.writer == w
      ensures u.sequence <= NextSequence(s.store.committed, w)
    {
      LoggedRun(s.store.committed, s.log, u, scale);
    }
  }

  // ------------------------------------------------------------- writing

  lemma {:induction false} AboveAll(ids: set<int>) returns (bound: int)
    ensures forall id :: id in ids ==> id < bound
    decreases |ids|
  {
    bound := 0;
    if id :| id in ids {
      var rest := AboveAll(ids - {id});
      bound := if id < rest then rest else id + 1;
      forall i | i in ids
        ensures i < bound
      {
        assert i == id || i in ids - {id};
      }
    }
  }

  /** Batches for one live writer process that is not writing, each under a later number than the last. */
  ghost predicate Ahead(s: Ledger, w: nat, jobs: seq<Job>, scale: Scale) {
    && w in s.procs && (forall id :: id in s.jobs ==> TagOf(s.jobs[id]).writer != w)
    && (forall i :: 0 <= i < |jobs| ==> Valid(jobs[i], scale) && TagOf(jobs[i]).writer == w)
    && (forall i :: 0 <= i < |jobs| ==> s.procs[w] < TagOf(jobs[i]).sequence)
    && forall i, j :: 0 <= i < j < |jobs| ==> TagOf(jobs[i]).sequence < TagOf(jobs[j]).sequence
  }

  /** The log with these batches too. */
  function Logged(log: map<Tag, Job>, jobs: seq<Job>): map<Tag, Job>
    decreases |jobs|
  {
    if jobs == [] then log else Logged(log[TagOf(jobs[0]) := jobs[0]], jobs[1..])
  }

  /** The moves of processes that are there already, and of the server. */
  predicate Uninterrupted(ms: seq<Move>) {
    forall m :: m in ms ==> !m.Start? && !m.Kill?
  }

  lemma WholeIsUninterrupted(id: int, job: Job, keep: nat, n: nat)
    ensures Uninterrupted(Whole(id, job, keep, n))
  {
  }

  lemma OneBatchMore(s: Ledger, w: nat, jobs: seq<Job>, scale: Scale) returns (ms: seq<Move>)
    requires scale <= MAX_SCALE && Sound(s, scale) && s.jobs.Keys == s.store.sessions.Keys
    requires jobs != [] && Ahead(s, w, jobs, scale)
    ensures Uninterrupted(ms)
    ensures var t := Moves(s, ms, scale);
            && Sound(t, scale) && t.jobs == s.jobs && t.jobs.Keys == t.store.sessions.Keys
            && t.log == s.log[TagOf(jobs[0]) := jobs[0]] && Ahead(t, w, jobs[1..], scale)
  {
    hide Sound, Valid, Whole, Moves, Moved;
    var id := AboveAll(s.store.sessions.Keys);
    assert CanMove(s, Begin(id, jobs[0], 0), scale);
    var n := BatchCommits(s, id, jobs[0], 0, scale);
    ms := Whole(id, jobs[0], 0, n);
    WholeIsUninterrupted(id, jobs[0], 0, n);
    MovesKeepSound(s, ms, scale);
  }

  lemma {:induction false} WritesThemAll(s: Ledger, w: nat, jobs: seq<Job>, scale: Scale) returns (ms: seq<Move>)
    requires scale <= MAX_SCALE && Sound(s, scale) && s.jobs.Keys == s.store.sessions.Keys
    requires Ahead(s, w, jobs, scale)
    ensures Uninterrupted(ms) && Moves(s, ms, scale).log == Logged(s.log, jobs)
    decreases |jobs|
  {
    hide Sound, CanMove, Moved, Ahead;
    if jobs == [] {
      ms := [];
    } else {
      var first := OneBatchMore(s, w, jobs, scale);
      var rest := WritesThemAll(Moves(s, first, scale), w, jobs[1..], scale);
      ms := first + rest;
      MovesAppend(s, first, rest, scale);
    }
  }

  /**
   * From every reachable state a live writer that is not in a transaction can write any batches that
   * lie ahead of it, one after the other and without a restart; the log gains just these.
   */
  lemma LiveWriterGoesOn(ms: seq<Move>, w: nat, jobs: seq<Job>, engine: Engine, scale: Scale)
    requires Discerning(engine) && scale <= MAX_SCALE
    ensures var s := After(ms, engine, scale);
            Ahead(s, w, jobs, scale) ==>
              exists more :: Uninterrupted(more) && Moves(s, more, scale).log == Logged(s.log, jobs)
  {
    hide After, Sound, CanMove, Moved, Ahead;
    AfterIsSound(ms, engine, scale);
    var s := After(ms, engine, scale);
    if Ahead(s, w, jobs, scale) {
      var reaps := OrphansGo(s, scale);
      var t := Moves(s, reaps, scale);
      StillAhead(s, t, w, jobs, scale);
      var rest := WritesThemAll(t, w, jobs, scale);
      MovesAppend(s, reaps, rest, scale);
      assert Uninterrupted(reaps + rest);
    }
  }

  lemma StillAhead(s: Ledger, t: Ledger, w: nat, jobs: seq<Job>, scale: Scale)
    requires Ahead(s, w, jobs, scale) && t.procs == s.procs && t.jobs == s.jobs
    ensures Ahead(t, w, jobs, scale)
  {
    hide Valid;
  }

  // ---------------------------------------------------------- restarting

  /** Batches for a writer, whether or not it has a process, beyond all it has committed. */
  ghost predicate Due(s: Ledger, w: nat, jobs: seq<Job>, scale: Scale) {
    && (forall i :: 0 <= i < |jobs| ==> Valid(jobs[i], scale) && TagOf(jobs[i]).writer == w)
    && (forall i, t :: 0 <= i < |jobs| && t in s.log && t.writer == w ==> t.sequence < TagOf(jobs[i]).sequence)
    && (forall i, j :: 0 <= i < j < |jobs| ==> TagOf(jobs[i]).sequence < TagOf(jobs[j]).sequence)
    && (w == REPARSE_WRITER ==> forall t :: t in s.log ==> t.writer != w)
  }

  /** The writer's process, if it has one, dies. */
  lemma ProcessGone(s: Ledger, w: nat, scale: Scale) returns (ms: seq<Move>)
    requires scale <= MAX_SCALE && Sound(s, scale)
    ensures var t := Moves(s, ms, scale);
            && Sound(t, scale) && t.log == s.log && w !in t.procs
            && forall id :: id in t.jobs ==> TagOf(t.jobs[id]).writer != w
  {
    hide Inv, Discerning, Coherent, Seed, Valid, LogRows, LogWell, Matches;
    if w in s.procs {
      ms := [Kill(w)];
      FirstMove(s, Kill(w), scale);
      MoveKeepsSound(s, Kill(w), scale);
    } else {
      ms := [];
      forall id | id in s.jobs
        ensures TagOf(s.jobs[id]).writer != w
      {
        assert WellOpen(s, id, scale);
      }
    }
  }

  lemma StartedIsAhead(s: Ledger, w: nat, jobs: seq<Job>, scale: Scale)
    requires scale <= MAX_SCALE && Sound(s, scale) && Due(s, w, jobs, scale) && CanMove(s, Start(w), scale)
    requires forall id :: id in s.jobs ==> TagOf(s.jobs[id]).writer != w
    ensures Ahead(Moved(s, Start(w), scale), w, jobs, scale)
  {
    StartResumes(s, w, scale);
    forall i | 0 <= i < |jobs|
      ensures 0 < TagOf(jobs[i]).sequence
    {
      ValidTags(jobs[i], scale);
    }
    hide Sound, Valid, CanMove, Moved;
  }

  /**
   * From every reachable state, whoever has died or is still writing, any batches a writer has not
   * got to yet can be written: a process is started, resumes where the last committed batch left
   * off, and the log gains just these. Only reparsing cannot be taken up again.
   */
  lemma EveryBatchCanBeWritten(ms: seq<Move>, w: nat, jobs: seq<Job>, engine: Engine, scale: Scale)
    requires Discerning(engine) && scale <= MAX_SCALE && w < 100
    ensures var s := After(ms, engine, scale);
            Due(s, w, jobs, scale) ==> exists more :: Moves(s, more, scale).log == Logged(s.log, jobs)
  {
    hide After, Sound, CanMove, Moved, Due, Ahead;
    AfterIsSound(ms, engine, scale);
    var s := After(ms, engine, scale);
    if Due(s, w, jobs, scale) {
      var kill := ProcessGone(s, w, scale);
      var killed := Moves(s, kill, scale);
      var reaps := OrphansGo(killed, scale);
      var t := Moves(killed, reaps, scale);
      StillDue(s, t, w, jobs, scale);
      var start := Start(w);
      MoveKeepsSound(t, start, scale);
      StartedIsAhead(t, w, jobs, scale);
      FirstMove(t, start, scale);
      var started := Moved(t, start, scale);
      StartResumes(t, w, scale);
      var rest := WritesThemAll(started, w, jobs, scale);
      MovesAppend(t, [start], rest, scale);
      MovesAppend(killed, reaps, [start] + rest, scale);
      MovesAppend(s, kill, reaps + ([start] + rest), scale);
    }
  }

  lemma StillDue(s: Ledger, t: Ledger, w: nat, jobs: seq<Job>, scale: Scale)
    requires Due(s, w, jobs, scale) && t.log == s.log && w < 100 && w !in t.procs
    ensures Due(t, w, jobs, scale) && CanMove(t, Start(w), scale)
  {
    hide Valid;
  }

  // -------------------------------------------------------------- losing

  /** A crash of the server takes every open transaction with it and nothing committed. */
  lemma CrashLosesTheOpen(ms: seq<Move>, engine: Engine, scale: Scale)
    requires Discerning(engine) && scale <= MAX_SCALE
    ensures var s := After(ms, engine, scale);
            && CanMove(s, Go(ServerCrash), scale)
            && var t := Moved(s, Go(ServerCrash), scale);
               && t.store.sessions == map[] && t.jobs == map[] && t.log == s.log
               && t.store.committed == Seed(scale) + LogRows(s.log, scale)
  {
    hide After, Sound, Seed, LogRows;
    AfterIsSound(ms, engine, scale);
    SoundParts(After(ms, engine, scale), scale);
  }

  /** A process that is killed in a transaction leaves it behind, with its rows, until the server notices. */
  lemma KillLeavesAnOrphan(ms: seq<Move>, id: int, engine: Engine, scale: Scale)
    requires Discerning(engine) && scale <= MAX_SCALE
    ensures var s := After(ms, engine, scale);
            id in s.jobs ==>
              && CanMove(s, Kill(TagOf(s.jobs[id]).writer), scale) && id in s.store.sessions
              && var t := Moved(s, Kill(TagOf(s.jobs[id]).writer), scale);
                 && id !in t.jobs && Held(s.store.sessions[id]) <= Orphaned(t) && t.log == s.log
                 && CanMove(t, Reap(id), scale)
                 && t.store.committed == Seed(scale) + LogRows(s.log, scale)
  {
    hide After, Inv, Discerning, Coherent, Seed, Valid, LogRows, LogWell, Matches, Held;
    AfterIsSound(ms, engine, scale);
    var s := After(ms, engine, scale);
    if id in s.jobs {
      assert WellOpen(s, id, scale);
    }
  }
}

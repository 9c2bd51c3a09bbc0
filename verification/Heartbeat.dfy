/**
 * The worker's heartbeat (service.py), the container health check that reads it (healthcheck.py)
 * and the limit they share (settings.py), as one timed run. Times are seconds.
 */
module Heartbeat {
  const DEFAULT_INTERVAL := 30.0
  const MISSED_CYCLES_BEFORE_STALE := 3.0
  const MINIMUM_HEARTBEAT_MAX_AGE := 15.0

  // --------------------------------------------------------- settings

  /** The interval variable as the environment gives it. */
  datatype Setting = Unset | Garbled | Number(value: real)

  /** `worker_interval_seconds`; None is a settings error. */
  datatype Interval = Invalid | Every(seconds: real)

  function IntervalOf(raw: Setting): (i: Interval)
    ensures i.Every? ==> i.seconds > 0.0
  {
    match raw
    case Unset => Every(DEFAULT_INTERVAL)
    case Garbled => Invalid
    case Number(value) => if value <= 0.0 then Invalid else Every(value)
  }

  function MaxAge(interval: real): real {
    if interval * MISSED_CYCLES_BEFORE_STALE >= MINIMUM_HEARTBEAT_MAX_AGE
    then interval * MISSED_CYCLES_BEFORE_STALE
    else MINIMUM_HEARTBEAT_MAX_AGE
  }

  /** The slack the limit leaves beyond the interval is ten seconds, and no more can be relied on. */
  lemma TenSecondsOfSlack(slack: real)
    ensures (forall interval: real :: interval > 0.0 ==> MaxAge(interval) >= interval + slack) <==> slack <= 10.0
  {
    if slack > 10.0 {
      assert MaxAge(5.0) == 15.0;
    }
  }

  // ------------------------------------------------------ health check

  /** What the payload says, and how many bytes of text say it. */
  datatype Payload = Payload(checkedAt: real, healthy: bool, size: nat)

  /** A file that is missing, not a heartbeat, or holds the first `written` bytes of one. */
  datatype File = Absent | Unusable | Holds(payload: Payload, written: nat)

  predicate Whole(f: File) {
    f.Holds? && f.written == f.payload.size
  }

  /** The exit code of the health check: 0 alive, 1 stale or unreadable, 2 misconfigured. */
  function HealthCheck(raw: Setting, f: File, now: real): nat {
    match IntervalOf(raw)
    case Invalid => 2
    case Every(seconds) =>
      if !Whole(f) then 1
      else if now - f.payload.checkedAt > MaxAge(seconds) then 1
      else 0
  }

  /**
   * The exit codes: 2 exactly for an interval that is no number above zero, 0 exactly for a whole
   * heartbeat no older than three intervals or fifteen seconds, whichever is more, and else 1; also
   * for a file that is missing, is no heartbeat or is cut short.
   */
  lemma ExitCodes(raw: Setting, f: File, now: real)
    ensures var code := HealthCheck(raw, f, now);
            var interval := if raw.Number? then raw.value else 30.0;
            && code <= 2
            && (code == 2 <==> raw == Garbled || (raw.Number? && raw.value <= 0.0))
            && (code == 0 <==>
                  && raw != Garbled && interval > 0.0
                  && f.Holds? && f.written == f.payload.size
                  && (now - f.payload.checkedAt <= 15.0 || now - f.payload.checkedAt <= 3.0 * interval))
  {
  }

  // -------------------------------------------------------- the worker

  /** Probing, writing the temporary file, logging, waiting until a time, or gone. */
  datatype Phase = Probing | Writing | Logging | Waiting(until: real) | Gone

  /**
   * `beats` counts the heartbeats published so far. `spent` is the time outside the wait since the
   * published one was stamped, `waited` the time inside it; `spentNew` counts from the stamp of the
   * one being written.
   */
  datatype Worker = Worker(now: real, phase: Phase, published: File, temporary: File, beats: nat,
                           spent: real, waited: real, spentNew: real)

  datatype Step =
    | Tick(d: real)
    | Stamp(healthy: bool, size: nat)
    | WriteByte
    | Replace
    | BeginWait
    | Wake
    | Stop
    | Kill

  /** A worker starting beside whatever an earlier one left. */
  function Starting(now: real, published: File, temporary: File): Worker {
    Worker(now, Probing, published, temporary, 0, 0.0, 0.0, 0.0)
  }

  predicate Enabled(s: Worker, step: Step) {
    match step
    case Tick(d) => d >= 0.0 && (s.phase.Waiting? ==> s.now + d <= s.phase.until)
    case Stamp(_, _) => s.phase == Probing
    case WriteByte => s.phase == Writing && s.temporary.Holds? && s.temporary.written < s.temporary.payload.size
    case Replace => s.phase == Writing && Whole(s.temporary)
    case BeginWait => s.phase == Logging
    case Wake => s.phase.Waiting? && s.now == s.phase.until
    case Stop => s.phase.Waiting?
    case Kill => true
  }

  function Apply(s: Worker, step: Step, interval: real): Worker
    requires Enabled(s, step)
  {
    match step
    case Tick(d) =>
      if s.phase.Waiting? then s.(now := s.now + d, waited := s.waited + d)
      else s.(now := s.now + d, spent := s.spent + d, spentNew := s.spentNew + d)
    case Stamp(healthy, size) =>
      s.(phase := Writing, temporary := Holds(Payload(s.now, healthy, size), 0), spentNew := 0.0)
    case WriteByte => s.(temporary := s.temporary.(written := s.temporary.written + 1))
    case Replace =>
      s.(phase := Logging, published := s.temporary, temporary := Absent, beats := s.beats + 1,
         spent := s.spentNew, waited := 0.0)
    case BeginWait => s.(phase := Waiting(s.now + interval))
    case Wake => s.(phase := Probing)
    case Stop => s.(phase := Gone)
    case Kill => s.(phase := Gone)
  }

  /** A schedule; a step that is not possible when its turn comes is passed over. */
  function Run(s: Worker, steps: seq<Step>, interval: real): Worker {
    if steps == [] then s else
      var before, last := Run(s, steps[..|steps| - 1], interval), steps[|steps| - 1];
      if Enabled(before, last) then Apply(before, last, interval) else before
  }

  ghost predicate Inv(start: Worker, s: Worker, interval: real) {
    && s.spent >= 0.0 && s.spentNew >= 0.0
    && (s.phase == Writing ==>
          s.temporary.Holds? && s.now - s.temporary.payload.checkedAt == s.spentNew)
    && (if s.beats == 0 then s.published == start.published
        else Whole(s.published) && s.now - s.published.payload.checkedAt == s.spent + s.waited
             && 0.0 <= s.waited <= interval)
    && (s.phase == Logging ==> s.beats > 0 && s.waited == 0.0)
    && (s.phase in {Probing, Writing} && s.beats > 0 ==> s.waited == interval)
    && (s.phase.Waiting? ==> s.beats > 0 && s.now <= s.phase.until && s.waited == interval - (s.phase.until - s.now))
  }

  lemma StepKeeps(start: Worker, s: Worker, step: Step, interval: real)
    requires interval > 0.0 && Inv(start, s, interval) && Enabled(s, step)
    ensures Inv(start, Apply(s, step, interval), interval)
    ensures s.now <= Apply(s, step, interval).now
    ensures s.phase == Gone ==>
              Apply(s, step, interval).phase == Gone && Apply(s, step, interval).published == s.published
  {
  }

  lemma {:induction false} RunKeeps(start: Worker, s: Worker, steps: seq<Step>, interval: real)
    requires interval > 0.0 && Inv(start, s, interval)
    ensures Inv(start, Run(s, steps, interval), interval)
    ensures s.now <= Run(s, steps, interval).now
    ensures s.phase == Gone ==> Run(s, steps, interval).phase == Gone
    ensures s.phase == Gone ==> Run(s, steps, interval).published == s.published
  {
    hide Inv, Apply, Enabled;
    if steps != [] {
      var front := steps[..|steps| - 1];
      RunKeeps(start, s, front, interval);
      if Enabled(Run(s, front, interval), steps[|steps| - 1]) {
        StepKeeps(start, Run(s, front, interval), steps[|steps| - 1], interval);
      }
    }
  }

  // ---------------------------------------------------------- theorems

  /**
   * From its first heartbeat on, a worker that has spent at most ten seconds outside its wait since
   * the last one is alive to the health check, whatever its probes found; and a reader only ever
   * finds a whole heartbeat, or what was there before the worker started.
   */
  lemma NeverReportedStale(raw: Setting, now: real, published: File, temporary: File, steps: seq<Step>)
    requires IntervalOf(raw).Every?
    ensures var s := Run(Starting(now, published, temporary), steps, IntervalOf(raw).seconds);
            && (s.beats > 0 && s.spent <= 10.0 ==> HealthCheck(raw, s.published, s.now) == 0)
            && (if s.beats > 0 then Whole(s.published) else s.published == published)
  {
    var start, interval := Starting(now, published, temporary), IntervalOf(raw).seconds;
    RunKeeps(start, start, steps, interval);
    TenSecondsOfSlack(10.0);
  }

  /** A worker waits its whole interval: the next heartbeat is stamped no sooner than that after the last. */
  lemma BeatsAreApart(raw: Setting, now: real, published: File, temporary: File, steps: seq<Step>, healthy: bool,
                      size: nat)
    requires IntervalOf(raw).Every?
    ensures var interval := IntervalOf(raw).seconds;
            var s := Run(Starting(now, published, temporary), steps, interval);
            s.beats > 0 && Enabled(s, Stamp(healthy, size)) ==>
              Whole(s.published)
              && Apply(s, Stamp(healthy, size), interval).temporary.payload.checkedAt
                 >= s.published.payload.checkedAt + interval
  {
    var start, interval := Starting(now, published, temporary), IntervalOf(raw).seconds;
    RunKeeps(start, start, steps, interval);
  }

  /** A worker that is gone is reported from the moment its heartbeat passes the limit, and ever after. */
  lemma StoppedIsReported(raw: Setting, now: real, published: File, temporary: File, steps: seq<Step>,
                          after: seq<Step>, later: seq<Step>)
    requires IntervalOf(raw).Every?
    ensures var interval := IntervalOf(raw).seconds;
            var s := Run(Starting(now, published, temporary), steps, interval);
            var t := Run(s, after, interval);
            s.phase == Gone && s.beats > 0 ==>
              && Whole(s.published)
              && (HealthCheck(raw, t.published, t.now) == 1
                  <==> t.now > s.published.payload.checkedAt + MaxAge(interval))
              && (HealthCheck(raw, t.published, t.now) == 1 ==>
                    HealthCheck(raw, Run(t, later, interval).published, Run(t, later, interval).now) == 1)
  {
    var start, interval := Starting(now, published, temporary), IntervalOf(raw).seconds;
    RunKeeps(start, start, steps, interval);
    var s := Run(start, steps, interval);
    RunKeeps(start, s, after, interval);
    RunKeeps(start, Run(s, after, interval), later, interval);
  }

  // -------------------------------------------------- write_heartbeat

  /** The heartbeat's directory: the file the health check reads, and the one beside it. */
  class Directory {
    var published: File
    var temporary: File

    constructor ()
      ensures published == temporary == Absent
    {
      published, temporary := Absent, Absent;
    }

    /** `temporary.replace(path)` is one step. */
    method Replace()
      requires Whole(temporary)
      modifies this
      ensures published == old(temporary) && temporary == Absent
    {
      published := temporary;
      temporary := Absent;
    }

    /**
     * The process may be killed after any number of `steps`: opening the temporary file, one per byte,
     * and the replacement. Short of the last of them the published file is the one that was there.
     */
    method WriteHeartbeat(healthy: bool, checkedAt: real, size: nat, steps: nat)
      modifies this
      ensures steps >= size + 2 ==> published == Holds(Payload(checkedAt, healthy, size), size) && temporary == Absent
      ensures steps < size + 2 ==> published == old(published)
      ensures 0 < steps < size + 2 ==> temporary == Holds(Payload(checkedAt, healthy, size), steps - 1)
      ensures steps == 0 ==> temporary == old(temporary)
    {
      if steps == 0 {
        return;
      }
      temporary := Holds(Payload(checkedAt, healthy, size), 0);
      for written := 0 to size
        invariant temporary == Holds(Payload(checkedAt, healthy, size), written)
        invariant published == old(published) && written < steps
      {
        if steps == written + 1 {
          return;
        }
        temporary := temporary.(written := written + 1);
      }
      if steps == size + 1 {
        return;
      }
      Replace();
    }
  }
}

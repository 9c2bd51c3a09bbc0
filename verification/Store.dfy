/**
 * Any number of sessions sharing one database, each running one transaction at a time. The rules
 * are the ones the workload relies on from both engines: constraints are checked row by row, a
 * duplicate of a row another transaction has not committed yet waits, and an unfinished transaction
 * leaves nothing behind. MariaDB's way of appending observations runs here as it does in the code:
 * many rows in one statement, and after a duplicate one savepoint per row.
 */
module Store {
  import opened Schema

  /** How a row is inserted: plainly, with ON CONFLICT, in a many-row statement, under a savepoint. */
  datatype Mode = Plain | OnConflict | InBatch | Savepoint

  datatype Statement = Statement(row: Row, mode: Mode)

  /**
   * What a transaction is told to do: insert one row, with ON CONFLICT or without, or append rows the
   * MariaDB way; `keep` is how many rows a failed many-row statement leaves behind, if it got so far.
   */
  datatype Call = One(row: Row, skip: bool) | Many(rows: seq<Row>, keep: nat)

  /** Where an append is: in its many-row statement, or at a row of its savepoint loop. */
  datatype Stage = Trying | Looping(next: nat)

  /** `fast` holds the rows the unfinished many-row statement has inserted so far. */
  datatype Session = Session(program: seq<Call>, pc: nat, stage: Stage, fast: seq<Row>, pending: set<Row>)

  datatype State = State(engine: Engine, committed: set<Row>, sessions: map<int, Session>)

  datatype Reason = CheckViolated | Duplicate | MissingReference

  datatype Outcome = Inserted | Skipped | FallsBack | Waits | Rejected(reason: Reason)

  /** A duplicate ends a plain statement, and sends a many-row one to its savepoint loop. */
  function OnDuplicate(mode: Mode): Outcome {
    match mode
    case InBatch => FallsBack
    case Savepoint => Skipped
    case _ => Rejected(Duplicate)
  }

  /** What the database answers to a statement, given what the session and the others hold. */
  function Answer(engine: Engine, view: set<Row>, others: set<Row>, st: Statement): Outcome {
    if !Checks(engine, st.row) then Rejected(CheckViolated)
    else if st.mode == OnConflict && st.row.Observation? && KeyHeld(engine, view, st.row.key) then Skipped
    else if exists q :: q in view && Clash(engine, st.row, q) then OnDuplicate(st.mode)
    else if exists q :: q in others && Clash(engine, st.row, q) then Waits
    else if exists k :: k in Refs(st.row) && !Has(view, k) then Rejected(MissingReference)
    else Inserted
  }

  // ---------------------------------------------------------- sessions

  function Min(a: nat, b: nat): nat {
    if a < b then a else b
  }

  /** Appends hold observations, and at least one: `insert_observations` returns at once without rows. */
  predicate WellFormed(program: seq<Call>) {
    forall c :: c in program && c.Many? ==>
      c.rows != [] && forall j :: 0 <= j < |c.rows| ==> c.rows[j].Observation?
  }

  function Opened(program: seq<Call>): Session {
    Session(program, 0, Trying, [], {})
  }

  function Held(t: Session): set<Row> {
    t.pending + Rows(t.fast)
  }

  /** A row is next. */
  predicate Ready(t: Session) {
    t.pc < |t.program| &&
    match t.program[t.pc]
    case One(_, _) => true
    case Many(rows, _) => if t.stage.Trying? then |t.fast| < |rows| else t.stage.next < |rows|
  }

  function Current(t: Session): Statement
    requires Ready(t)
  {
    match t.program[t.pc]
    case One(row, skip) => Statement(row, if skip then OnConflict else Plain)
    case Many(rows, _) =>
      if t.stage.Trying? then Statement(rows[|t.fast|], InBatch) else Statement(rows[t.stage.next], Savepoint)
  }

  /** The session after a row was inserted, was passed over, or ended the many-row statement. */
  function Advance(t: Session, o: Outcome): Session
    requires Ready(t) && o in {Inserted, Skipped, FallsBack}
  {
    var row := Current(t).row;
    match t.program[t.pc]
    case One(_, _) =>
      t.(pc := t.pc + 1, pending := t.pending + if o == Inserted then {row} else {})
    case Many(rows, keep) =>
      if t.stage.Looping? then
        var t' := t.(pending := t.pending + if o == Inserted then {row} else {});
        if t.stage.next + 1 == |rows| then t'.(pc := t.pc + 1, stage := Trying)
        else t'.(stage := Looping(t.stage.next + 1))
      else if o != Inserted then
        t.(stage := Looping(0), fast := [], pending := t.pending + Rows(t.fast[..Min(keep, |t.fast|)]))
      else if |t.fast| + 1 == |rows| then
        t.(pc := t.pc + 1, fast := [], pending := t.pending + Rows(t.fast + [row]))
      else t.(fast := t.fast + [row])
  }

  // -------------------------------------------------------------- runs

  /** Rows written by the open transactions in `ws`. */
  function Pending(s: State, ws: set<int>): set<Row> {
    set w, r | w in ws && w in s.sessions && r in Held(s.sessions[w]) :: r
  }

  function View(s: State, w: int): set<Row>
    requires w in s.sessions
  {
    s.committed + Held(s.sessions[w])
  }

  function World(s: State): set<Row> {
    s.committed + Pending(s, s.sessions.Keys)
  }

  /** Another session dying and the server dying look the same to the rows: they are dropped. */
  datatype Step =
    | Open(w: int, program: seq<Call>)
    | Execute(w: int)
    | Commit(w: int)
    | Abort(w: int)
    | ServerCrash

  predicate Enabled(s: State, step: Step) {
    match step
    case Open(w, program) => w !in s.sessions && WellFormed(program)
    case Execute(w) => w in s.sessions && Ready(s.sessions[w])
    case Commit(w) => w in s.sessions && s.sessions[w].pc == |s.sessions[w].program|
    case Abort(w) => w in s.sessions
    case ServerCrash => true
  }

  function AnswerTo(s: State, w: int): Outcome
    requires Enabled(s, Execute(w))
  {
    Answer(s.engine, View(s, w), Pending(s, s.sessions.Keys - {w}), Current(s.sessions[w]))
  }

  function Apply(s: State, step: Step): State
    requires Enabled(s, step)
  {
    match step
    case Open(w, program) => s.(sessions := s.sessions[w := Opened(program)])
    case Execute(w) =>
      (match AnswerTo(s, w)
       case Waits => s
       case Rejected(_) => s.(sessions := s.sessions - {w})
       case o => s.(sessions := s.sessions[w := Advance(s.sessions[w], o)]))
    case Commit(w) => State(s.engine, View(s, w), s.sessions - {w})
    case Abort(w) => s.(sessions := s.sessions - {w})
    case ServerCrash => s.(sessions := map[])
  }

  /** A schedule; a step that is not possible when its turn comes is passed over. */
  function Run(s: State, steps: seq<Step>): State {
    if steps == [] then s else
      var before := Run(s, steps[..|steps| - 1]);
      var last := steps[|steps| - 1];
      if Enabled(before, last) then Apply(before, last) else before
  }

  // --------------------------------------------------------- invariant

  /** The many-row statement is part-way through its rows, or the loop is. */
  ghost predicate Staged(t: Session) {
    && t.pc <= |t.program| && WellFormed(t.program)
    && (t.pc == |t.program| || t.program[t.pc].One? ==> t.stage == Trying && t.fast == [])
    && (t.pc < |t.program| && t.program[t.pc].Many? ==>
          var rows := t.program[t.pc].rows;
          if t.stage.Trying? then |t.fast| < |rows| && t.fast == rows[..|t.fast|]
          else t.stage.next < |rows| && t.fast == [])
  }

  /** Its key is stored, or at least its identifier is. */
  predicate Settled(engine: Engine, db: set<Row>, row: Row)
    requires row.Observation?
  {
    KeyHeld(engine, db, row.key) || Has(db, PkOf(row))
  }

  /** What is certain of the calls a session has got past, and of the rows its loop has. */
  ghost predicate Honoured(engine: Engine, base: set<Row>, t: Session)
    requires Staged(t)
  {
    && (forall j :: 0 <= j < t.pc ==>
          match t.program[j]
          case One(row, _) => row.Observation? ==> KeyHeld(engine, base, row.key)
          case Many(rows, _) => forall m :: 0 <= m < |rows| ==> rows[m].Observation? && Settled(engine, base, rows[m]))
    && (t.pc < |t.program| && t.program[t.pc].Many? && t.stage.Looping? ==>
          forall m :: 0 <= m < t.stage.next ==>
            t.program[t.pc].rows[m].Observation? && Settled(engine, base, t.program[t.pc].rows[m]))
  }

  /** The rows a session can no longer lose but by losing its transaction. */
  function Base(s: State, w: int): set<Row>
    requires w in s.sessions
  {
    s.committed + s.sessions[w].pending
  }

  ghost predicate Inv(s: State) {
    && Unique(s.engine, World(s))
    && Checked(s.engine, World(s))
    && Closed(s.committed)
    && forall w :: w in s.sessions ==>
         Closed(View(s, w)) && Staged(s.sessions[w]) && Honoured(s.engine, Base(s, w), s.sessions[w])
  }

  lemma ViewInWorld(s: State, w: int)
    requires w in s.sessions
    ensures View(s, w) <= World(s)
  {
  }

  lemma SettledGrows(engine: Engine, a: set<Row>, b: set<Row>, row: Row)
    requires a <= b && row.Observation? && Settled(engine, a, row)
    ensures Settled(engine, b, row)
  {
    if KeyHeld(engine, a, row.key) {
      KeyHeldMonotone(engine, a, b, row.key);
    } else {
      HasMonotone(a, b, PkOf(row));
    }
  }

  lemma HonouredGrows(engine: Engine, a: set<Row>, b: set<Row>, t: Session)
    requires a <= b && Staged(t) && Honoured(engine, a, t)
    ensures Honoured(engine, b, t)
  {
    hide KeyHeld, Settled, Has;
    forall row: Row | row.Observation?
      ensures KeyHeld(engine, a, row.key) ==> KeyHeld(engine, b, row.key)
      ensures Settled(engine, a, row) ==> Settled(engine, b, row)
    {
      if KeyHeld(engine, a, row.key) {
        KeyHeldMonotone(engine, a, b, row.key);
      }
      if Settled(engine, a, row) {
        SettledGrows(engine, a, b, row);
      }
    }
  }

  /** Sessions that are still there, over at least the committed rows there were. */
  lemma OthersKept(s: State, s': State, v: int)
    requires v in s.sessions && v in s'.sessions && s'.sessions[v] == s.sessions[v]
    requires s.committed <= s'.committed && Closed(s'.committed)
    requires Closed(View(s, v)) && Staged(s.sessions[v]) && Honoured(s.engine, Base(s, v), s.sessions[v])
    ensures Closed(View(s', v)) && Honoured(s.engine, Base(s', v), s'.sessions[v])
  {
    assert View(s', v) == s'.committed + View(s, v);
    ClosedUnion(s'.committed, View(s, v));
    HonouredGrows(s.engine, Base(s, v), Base(s', v), s.sessions[v]);
  }

  /** Dropping sessions keeps the invariant. */
  lemma DropKeeps(s: State, s': State)
    requires Inv(s) && s'.committed == s.committed && s'.engine == s.engine
    requires forall w :: w in s'.sessions ==> w in s.sessions && s'.sessions[w] == s.sessions[w]
    ensures Inv(s')
  {
    hide Closed, Staged, Honoured;
    assert World(s') <= World(s);
    forall w | w in s'.sessions
      ensures Closed(View(s', w)) && Honoured(s.engine, Base(s', w), s'.sessions[w])
    {
      OthersKept(s, s', w);
    }
  }

  lemma OpenKeeps(s: State, w: int, program: seq<Call>)
    requires Inv(s) && Enabled(s, Open(w, program))
    ensures Inv(Apply(s, Open(w, program)))
    ensures World(Apply(s, Open(w, program))) == World(s)
  {
    hide Closed, Honoured;
    var s' := Apply(s, Open(w, program));
    assert Held(Opened(program)) == {};
    forall r | r in World(s)
      ensures r in World(s')
    {
      if r !in s.committed {
        var v :| v in s.sessions && r in Held(s.sessions[v]);
        assert v in s'.sessions && s'.sessions[v] == s.sessions[v];
      }
    }
    OpenedHonoured(s.engine, s.committed, program);
    forall v | v in s'.sessions
      ensures Closed(View(s', v)) && Staged(s'.sessions[v]) && Honoured(s.engine, Base(s', v), s'.sessions[v])
    {
      if v == w {
        assert View(s', v) == s.committed && Base(s', v) == s.committed;
      } else {
        OthersKept(s, s', v);
      }
    }
  }

  lemma OpenedHonoured(engine: Engine, db: set<Row>, program: seq<Call>)
    requires WellFormed(program)
    ensures Staged(Opened(program)) && Honoured(engine, db, Opened(program))
  {
  }

  lemma CommitKeeps(s: State, w: int)
    requires Inv(s) && Enabled(s, Commit(w))
    ensures Inv(Apply(s, Commit(w)))
  {
    hide Closed, Staged, Honoured;
    var s' := Apply(s, Commit(w));
    assert World(s') <= World(s);
    forall v | v in s'.sessions
      ensures Closed(View(s', v)) && Honoured(s.engine, Base(s', v), s'.sessions[v])
    {
      OthersKept(s, s', v);
    }
  }

  // ------------------------------------------------------ one statement

  /** What a step of a session does to the rows it holds. */
  lemma AdvanceHolds(t: Session, o: Outcome)
    requires Ready(t) && Staged(t) && o in {Inserted, Skipped, FallsBack}
    ensures Staged(Advance(t, o)) && t.pending <= Advance(t, o).pending
    ensures o == Inserted ==> Held(Advance(t, o)) == Held(t) + {Current(t).row}
    ensures o == Skipped && Current(t).mode != InBatch ==> Held(Advance(t, o)) == Held(t)
    ensures Held(Advance(t, o)) <= Held(t) + {Current(t).row}
    ensures forall r :: r in Held(t) && r !in Held(Advance(t, o)) ==> r.Observation?
  {
    if t.program[t.pc].Many? {
      ManyHolds(t, o);
    }
  }

  lemma ManyHolds(t: Session, o: Outcome)
    requires Ready(t) && Staged(t) && o in {Inserted, Skipped, FallsBack} && t.program[t.pc].Many?
    ensures Staged(Advance(t, o)) && t.pending <= Advance(t, o).pending
    ensures o == Inserted ==> Held(Advance(t, o)) == Held(t) + {Current(t).row}
    ensures o == Skipped && Current(t).mode != InBatch ==> Held(Advance(t, o)) == Held(t)
    ensures Held(Advance(t, o)) <= Held(t) + {Current(t).row}
    ensures forall r :: r in Held(t) && r !in Held(Advance(t, o)) ==> r.Observation?
  {
    var rows := t.program[t.pc].rows;
    assert t.program[t.pc] in t.program;
    if t.stage.Trying? {
      var row := rows[|t.fast|];
      assert t.fast + [row] == rows[..|t.fast| + 1];
      RowsAppend(t.fast, row);
      RowsPrefix(t.fast, Min(t.program[t.pc].keep, |t.fast|));
    }
  }

  /** Nothing refers to observations, so some of them can go. */
  lemma ClosedWithout(db: set<Row>, sub: set<Row>)
    requires Closed(db) && sub <= db && forall r :: r in db && r !in sub ==> r.Observation?
    ensures Closed(sub)
  {
    forall r, k | r in sub && k in Refs(r)
      ensures Has(sub, k)
    {
      NotAnObservation(r, k);
      assert Has(db, k);
      var q :| q in db && PkOf(q) == k;
      assert q in sub;
    }
  }

  lemma NotAnObservation(r: Row, k: Key)
    requires k in Refs(r)
    ensures k.table != ObservationT
  {
  }

  /** Every answer that lets the session go on honours what it has got past. */
  lemma AdvanceHonours(engine: Engine, committed: set<Row>, others: set<Row>, t: Session)
    requires Ready(t) && Staged(t) && Honoured(engine, committed + t.pending, t)
    requires Answer(engine, committed + Held(t), others, Current(t)) in {Inserted, Skipped, FallsBack}
    ensures var t' := Advance(t, Answer(engine, committed + Held(t), others, Current(t)));
            Staged(t') && Honoured(engine, committed + t'.pending, t')
  {
    hide Staged, Answer;
    var o := Answer(engine, committed + Held(t), others, Current(t));
    var t' := Advance(t, o);
    AdvanceHolds(t, o);
    var base, base' := committed + t.pending, committed + t'.pending;
    HonouredGrows(engine, base, base', t);
    if t.program[t.pc].One? {
      OneHonours(engine, committed, others, t);
    } else if t.stage.Looping? {
      LoopHonours(engine, committed, others, t);
    } else {
      TryHonours(engine, committed, others, t);
    }
  }

  lemma OneHonours(engine: Engine, committed: set<Row>, others: set<Row>, t: Session)
    requires Ready(t) && Staged(t) && t.program[t.pc].One?
    requires Answer(engine, committed + Held(t), others, Current(t)) in {Inserted, Skipped, FallsBack}
    requires var t' := Advance(t, Answer(engine, committed + Held(t), others, Current(t)));
             Staged(t') && Honoured(engine, committed + t'.pending, t)
    ensures var t' := Advance(t, Answer(engine, committed + Held(t), others, Current(t)));
            Honoured(engine, committed + t'.pending, t')
  {
    hide Clash, Refs, Checks;
    assert Held(t) == t.pending;
    var row, t' := t.program[t.pc].row, Advance(t, Answer(engine, committed + Held(t), others, Current(t)));
    if row.Observation? {
      assert KeyHeld(engine, committed + t'.pending, row.key) by {
        if Answer(engine, committed + Held(t), others, Current(t)) == Inserted {
          assert row in committed + t'.pending;
        } else {
          assert t'.pending == t.pending;
        }
      }
    }
    hide Answer, KeyHeld;
  }

  lemma LoopHonours(engine: Engine, committed: set<Row>, others: set<Row>, t: Session)
    requires Ready(t) && Staged(t) && t.program[t.pc].Many? && t.stage.Looping?
    requires Answer(engine, committed + Held(t), others, Current(t)) in {Inserted, Skipped, FallsBack}
    requires var t' := Advance(t, Answer(engine, committed + Held(t), others, Current(t)));
             Staged(t') && Honoured(engine, committed + t'.pending, t)
    ensures var t' := Advance(t, Answer(engine, committed + Held(t), others, Current(t)));
            Honoured(engine, committed + t'.pending, t')
  {
    hide Answer, Settled, KeyHeld, Advance, Staged, Honoured;
    var o, row := Answer(engine, committed + Held(t), others, Current(t)), t.program[t.pc].rows[t.stage.next];
    LoopRow(t, o);
    LoopSettles(engine, committed + Held(t), others, row);
    AdvanceHolds(t, o);
    StoredIsSettled(engine, committed + Advance(t, o).pending, row);
    LoopGoesOn(engine, committed + Advance(t, o).pending, t, o);
  }

  lemma LoopRow(t: Session, o: Outcome)
    requires Ready(t) && Staged(t) && t.program[t.pc].Many? && t.stage.Looping? && o in {Inserted, Skipped, FallsBack}
    ensures Current(t) == Statement(t.program[t.pc].rows[t.stage.next], Savepoint) && Current(t).row.Observation?
    ensures Held(t) == t.pending && Held(Advance(t, o)) == Advance(t, o).pending
  {
    assert t.program[t.pc] in t.program;
    var none: seq<Row> := [];
    assert Rows(none) == {};
  }

  lemma StoredIsSettled(engine: Engine, db: set<Row>, row: Row)
    requires row.Observation?
    ensures row in db ==> Settled(engine, db, row)
  {
    if row in db {
      assert PkOf(row) == PkOf(row);
    }
  }

  lemma LoopGoesOn(engine: Engine, base: set<Row>, t: Session, o: Outcome)
    requires Ready(t) && Staged(t) && t.program[t.pc].Many? && t.stage.Looping? && o in {Inserted, Skipped, FallsBack}
    requires Honoured(engine, base, t) && Current(t).row.Observation? && Settled(engine, base, Current(t).row)
    requires Staged(Advance(t, o))
    ensures Honoured(engine, base, Advance(t, o))
  {
    hide Settled, KeyHeld;
  }

  /** A row passed over under a savepoint has its key or its identifier stored. */
  lemma LoopSettles(engine: Engine, view: set<Row>, others: set<Row>, row: Row)
    requires row.Observation?
    ensures Answer(engine, view, others, Statement(row, Savepoint)) != FallsBack
    ensures Answer(engine, view, others, Statement(row, Savepoint)) == Skipped ==> Settled(engine, view, row)
  {
    if Answer(engine, view, others, Statement(row, Savepoint)) == Skipped {
      var q :| q in view && Clash(engine, row, q);
      assert q.Observation? && (Same(engine, q.key, row.key) || PkOf(q) == PkOf(row));
    }
  }

  lemma TryHonours(engine: Engine, committed: set<Row>, others: set<Row>, t: Session)
    requires Ready(t) && Staged(t) && t.program[t.pc].Many? && t.stage.Trying?
    requires Answer(engine, committed + Held(t), others, Current(t)) in {Inserted, Skipped, FallsBack}
    requires var t' := Advance(t, Answer(engine, committed + Held(t), others, Current(t)));
             Staged(t') && Honoured(engine, committed + t'.pending, t)
    ensures var t' := Advance(t, Answer(engine, committed + Held(t), others, Current(t)));
            Honoured(engine, committed + t'.pending, t')
  {
    hide Answer, KeyHeld;
    var rows, t' := t.program[t.pc].rows, Advance(t, Answer(engine, committed + Held(t), others, Current(t)));
    assert t.program[t.pc] in t.program;
    if t'.pc > t.pc {
      assert t.fast + [rows[|t.fast|]] == rows;
      forall m | 0 <= m < |rows|
        ensures Settled(engine, committed + t'.pending, rows[m])
      {
        assert rows[m] in committed + t'.pending && PkOf(rows[m]) == PkOf(rows[m]);
      }
    }
    hide Settled;
  }

  lemma InsertedWorld(s: State, w: int)
    requires Enabled(s, Execute(w)) && Staged(s.sessions[w]) && AnswerTo(s, w) == Inserted
    ensures var row := Current(s.sessions[w]).row;
            && World(Apply(s, Execute(w))) == World(s) + {row}
            && View(Apply(s, Execute(w)), w) == View(s, w) + {row}
            && forall q :: q in World(s) ==> !Clash(s.engine, row, q)
  {
    hide Staged, Advance, Clash;
    var t, row, s' := s.sessions[w], Current(s.sessions[w]).row, Apply(s, Execute(w));
    AdvanceHolds(t, Inserted);
    WorldOfOne(s, w);
    WorldOfOne(s', w);
    SameOthers(s, s', w);
  }

  /** Everything is committed, held by one session, or held by the others. */
  lemma WorldOfOne(s: State, w: int)
    requires w in s.sessions
    ensures World(s) == View(s, w) + Pending(s, s.sessions.Keys - {w})
  {
  }

  lemma SameOthers(s: State, s': State, w: int)
    requires w in s.sessions && s'.sessions.Keys == s.sessions.Keys
    requires forall v :: v in s.sessions && v != w ==> s'.sessions[v] == s.sessions[v]
    ensures Pending(s', s'.sessions.Keys - {w}) == Pending(s, s.sessions.Keys - {w})
  {
  }

  /** The world after a statement that stored nothing new. */
  lemma PassedWorld(s: State, w: int)
    requires Enabled(s, Execute(w)) && Staged(s.sessions[w]) && AnswerTo(s, w) in {Skipped, FallsBack}
    ensures World(Apply(s, Execute(w))) <= World(s) && View(Apply(s, Execute(w)), w) <= View(s, w)
    ensures forall r :: r in View(s, w) && r !in View(Apply(s, Execute(w)), w) ==> r.Observation?
    ensures AnswerTo(s, w) == Skipped || s.sessions[w].fast == [] ==> World(Apply(s, Execute(w))) == World(s)
  {
    hide Advance;
    var t, s' := s.sessions[w], Apply(s, Execute(w));
    AdvancePasses(s.engine, View(s, w), Pending(s, s.sessions.Keys - {w}), t);
    AdvanceHolds(t, AnswerTo(s, w));
    hide Staged, Answer;
    WorldOfOne(s, w);
    WorldOfOne(s', w);
    SameOthers(s, s', w);
  }

  lemma AdvancePasses(engine: Engine, view: set<Row>, others: set<Row>, t: Session)
    requires Ready(t) && Staged(t) && Answer(engine, view, others, Current(t)) in {Skipped, FallsBack}
    ensures Held(Advance(t, Answer(engine, view, others, Current(t)))) <= Held(t)
    ensures Answer(engine, view, others, Current(t)) == Skipped || t.fast == [] ==>
              Held(Advance(t, Answer(engine, view, others, Current(t)))) == Held(t)
  {
    if t.stage.Trying? {
      RowsPrefix(t.fast, if t.program[t.pc].Many? then Min(t.program[t.pc].keep, |t.fast|) else 0);
    }
  }

  lemma ExecuteKeeps(s: State, w: int)
    requires Inv(s) && Enabled(s, Execute(w))
    ensures Inv(Apply(s, Execute(w)))
  {
    hide Closed, Honoured, Staged, Answer, Advance, Unique, Checked;
    match AnswerTo(s, w)
    case Waits =>
    case Rejected(_) => DropKeeps(s, Apply(s, Execute(w)));
    case Inserted => InsertKeeps(s, w);
    case _ => PassKeeps(s, w);
  }

  lemma InsertedIsFine(s: State, w: int)
    requires Enabled(s, Execute(w)) && AnswerTo(s, w) == Inserted
    ensures var row := Current(s.sessions[w]).row;
            Checks(s.engine, row) && forall k :: k in Refs(row) ==> Has(View(s, w), k)
  {
    hide Checks, Clash, Refs, Has, KeyHeld;
  }

  lemma InsertKeeps(s: State, w: int)
    requires Inv(s) && Enabled(s, Execute(w)) && AnswerTo(s, w) == Inserted
    ensures Inv(Apply(s, Execute(w)))
  {
    hide Closed, Honoured, Staged, Advance, Unique, Answer, AnswerTo, Clash, Checks, Has, Refs;
    var s', row := Apply(s, Execute(w)), Current(s.sessions[w]).row;
    InsertedIsFine(s, w);
    InsertedWorld(s, w);
    UniqueAdd(s.engine, World(s), row);
    ClosedAdd(View(s, w), row);
    SessionsKept(s, w);
  }

  lemma PassKeeps(s: State, w: int)
    requires Inv(s) && Enabled(s, Execute(w)) && AnswerTo(s, w) in {Skipped, FallsBack}
    ensures Inv(Apply(s, Execute(w)))
  {
    hide Closed, Honoured, Staged, Advance, Answer;
    var s' := Apply(s, Execute(w));
    PassedWorld(s, w);
    ClosedWithout(View(s, w), View(s', w));
    SessionsKept(s, w);
  }

  /** Every session goes on being honoured: the one that moved, and the others. */
  lemma SessionsKept(s: State, w: int)
    requires Inv(s) && Enabled(s, Execute(w)) && AnswerTo(s, w) in {Inserted, Skipped, FallsBack}
    requires Closed(View(Apply(s, Execute(w)), w))
    ensures var s' := Apply(s, Execute(w));
            forall v :: v in s'.sessions ==>
              Closed(View(s', v)) && Staged(s'.sessions[v]) && Honoured(s.engine, Base(s', v), s'.sessions[v])
  {
    hide Closed, Honoured, Staged, Advance, Answer, Unique, Checked;
    var s' := Apply(s, Execute(w));
    AdvanceHonours(s.engine, s.committed, Pending(s, s.sessions.Keys - {w}), s.sessions[w]);
    forall v | v in s'.sessions
      ensures Closed(View(s', v)) && Staged(s'.sessions[v]) && Honoured(s.engine, Base(s', v), s'.sessions[v])
    {
      if v != w {
        OthersKept(s, s', v);
      }
    }
  }

  lemma StepKeeps(s: State, step: Step)
    requires Inv(s) && Enabled(s, step)
    ensures Inv(Apply(s, step))
    ensures s.committed <= Apply(s, step).committed && Apply(s, step).engine == s.engine
    ensures !step.Commit? ==> Apply(s, step).committed == s.committed
  {
    hide Inv, Answer;
    match step
    case Open(w, program) => OpenKeeps(s, w, program);
    case Execute(w) => ExecuteKeeps(s, w);
    case Commit(w) => CommitKeeps(s, w);
    case Abort(w) => LossKeeps(s, step);
    case ServerCrash => LossKeeps(s, step);
  }

  lemma LossKeeps(s: State, step: Step)
    requires Inv(s) && Enabled(s, step) && (step.Abort? || step.ServerCrash?)
    ensures Inv(Apply(s, step))
  {
    hide Inv;
    DropKeeps(s, Apply(s, step));
  }

  lemma {:induction false} RunKeeps(s: State, steps: seq<Step>)
    requires Inv(s)
    ensures Inv(Run(s, steps))
    ensures s.committed <= Run(s, steps).committed && Run(s, steps).engine == s.engine
  {
    hide Inv, Apply, Enabled;
    if steps != [] {
      var front, last := steps[..|steps| - 1], steps[|steps| - 1];
      RunKeeps(s, front);
      if Enabled(Run(s, front), last) {
        StepKeeps(Run(s, front), last);
      }
    }
  }

  lemma StartHolds(engine: Engine, db: set<Row>)
    requires Consistent(engine, db)
    ensures Inv(State(engine, db, map[]))
  {
    assert World(State(engine, db, map[])) == db;
  }

  /**
   * Whatever the sessions run and however their statements, commits, aborts and crashes
   * interleave, the committed rows satisfy every constraint, and so does what any session sees.
   */
  lemma ConstraintsAlwaysHold(engine: Engine, db: set<Row>, steps: seq<Step>)
    requires Consistent(engine, db)
    ensures var s := Run(State(engine, db, map[]), steps);
            && Consistent(engine, s.committed)
            && forall w :: w in s.sessions ==> Consistent(engine, View(s, w))
  {
    hide Staged, Honoured, Closed;
    StartHolds(engine, db);
    RunKeeps(State(engine, db, map[]), steps);
    var s := Run(State(engine, db, map[]), steps);
    forall w | w in s.sessions
      ensures Consistent(engine, View(s, w))
    {
      ViewInWorld(s, w);
    }
  }

  // ------------------------------------------------------ offered keys

  predicate Offers(c: Call, row: Row) {
    match c
    case One(r, _) => r == row
    case Many(rows, _) => row in rows
  }

  predicate HasKey(engine: Engine, r: Row, key: string) {
    r.Observation? && Same(engine, r.key, key)
  }

  ghost predicate AtMostOneHas(engine: Engine, db: set<Row>, key: string) {
    forall p, q :: p in db && q in db && HasKey(engine, p, key) && HasKey(engine, q, key) ==> p == q
  }

  ghost predicate ExactlyOneHas(engine: Engine, db: set<Row>, key: string) {
    KeyHeld(engine, db, key) && AtMostOneHas(engine, db, key)
  }

  /** The row's identifier belongs to a row with another key. */
  predicate TakenByAnother(engine: Engine, db: set<Row>, row: Row)
    requires row.Observation?
  {
    exists q :: q in db && q.Observation? && q.id == row.id && !Same(engine, q.key, row.key)
  }

  lemma UniqueKeys(engine: Engine, db: set<Row>, key: string)
    requires Unique(engine, db)
    ensures AtMostOneHas(engine, db, key)
  {
    forall p, q | p in db && q in db && HasKey(engine, p, key) && HasKey(engine, q, key)
      ensures p == q
    {
      assert Clash(engine, p, q);
    }
  }

  lemma SettledOrTaken(engine: Engine, db: set<Row>, row: Row)
    requires row.Observation? && Settled(engine, db, row)
    ensures KeyHeld(engine, db, row.key) || TakenByAnother(engine, db, row)
  {
    if !KeyHeld(engine, db, row.key) {
      var q :| q in db && PkOf(q) == PkOf(row);
      assert q.Observation? && !Same(engine, q.key, row.key);
    }
  }

  lemma OfferIsSettled(engine: Engine, base: set<Row>, t: Session, j: nat, row: Row)
    requires Staged(t) && Honoured(engine, base, t) && j < t.pc && Offers(t.program[j], row) && row.Observation?
    ensures Settled(engine, base, row) && (t.program[j].One? ==> KeyHeld(engine, base, row.key))
  {
    hide Settled, KeyHeld;
    if t.program[j].One? {
      assert Settled(engine, base, row) by {
        Held2Settled(engine, base, row);
      }
    } else {
      var m: nat :| m < |t.program[j].rows| && t.program[j].rows[m] == row;
    }
  }

  lemma Held2Settled(engine: Engine, base: set<Row>, row: Row)
    requires row.Observation?
    ensures KeyHeld(engine, base, row.key) ==> Settled(engine, base, row)
  {
  }

  lemma OfferedKeyStays(s: State, w: int, j: nat, row: Row, after: seq<Step>)
    requires Inv(s) && Enabled(s, Commit(w)) && j < |s.sessions[w].program|
    requires Offers(s.sessions[w].program[j], row) && row.Observation?
    ensures var db := Run(Apply(s, Commit(w)), after).committed;
            && AtMostOneHas(s.engine, db, row.key)
            && (KeyHeld(s.engine, db, row.key) || TakenByAnother(s.engine, db, row))
            && (s.sessions[w].program[j].One? ==> KeyHeld(s.engine, db, row.key))
  {
    hide Settled, KeyHeld, TakenByAnother, Honoured, Closed, Checked;
    OfferIsSettled(s.engine, Base(s, w), s.sessions[w], j, row);
    var mid := Apply(s, Commit(w));
    assert Base(s, w) <= mid.committed;
    StepKeeps(s, Commit(w));
    RunKeeps(mid, after);
    var db := Run(mid, after).committed;
    SettledGrows(s.engine, Base(s, w), db, row);
    SettledOrTaken(s.engine, db, row);
    if s.sessions[w].program[j].One? {
      KeyHeldMonotone(s.engine, Base(s, w), db, row.key);
    }
    UniqueKeys(s.engine, World(Run(mid, after)), row.key);
  }

  /**
   * However many sessions offer one idempotency key, in whatever form and under whatever schedule, at
   * most one committed row ever has it. From the commit of a session that offered it onwards exactly
   * one does, unless that session appended its row the MariaDB way and the row's identifier went to a
   * row with another key.
   */
  lemma OneRowPerOfferedKey(engine: Engine, db: set<Row>, before: seq<Step>, w: int, after: seq<Step>, j: nat, row: Row)
    requires Consistent(engine, db) && row.Observation?
    ensures var s := Run(State(engine, db, map[]), before);
            && AtMostOneHas(engine, s.committed, row.key)
            && (Enabled(s, Commit(w)) && j < |s.sessions[w].program| && Offers(s.sessions[w].program[j], row) ==>
                  var end := Run(Apply(s, Commit(w)), after).committed;
                  && (ExactlyOneHas(engine, end, row.key) || TakenByAnother(engine, end, row))
                  && (s.sessions[w].program[j].One? ==> ExactlyOneHas(engine, end, row.key)))
  {
    hide Inv, Offers, KeyHeld, TakenByAnother, AtMostOneHas;
    StartHolds(engine, db);
    RunKeeps(State(engine, db, map[]), before);
    var s := Run(State(engine, db, map[]), before);
    InvKeys(s, row.key);
    if Enabled(s, Commit(w)) && j < |s.sessions[w].program| && Offers(s.sessions[w].program[j], row) {
      OfferedKeyStays(s, w, j, row, after);
    }
  }

  lemma InvKeys(s: State, key: string)
    requires Inv(s)
    ensures AtMostOneHas(s.engine, s.committed, key)
  {
    UniqueKeys(s.engine, World(s), key);
  }

  /**
   * A savepoint statement that neither waits nor fails leaves the offered key stored exactly when the
   * key was stored before or the identifier was free.
   */
  lemma SavepointKeepsKey(s: State, w: int)
    requires Inv(s) && Enabled(s, Execute(w)) && Current(s.sessions[w]).mode == Savepoint
    requires AnswerTo(s, w) in {Inserted, Skipped}
    ensures var row := Current(s.sessions[w]).row;
            row.Observation? &&
            (KeyHeld(s.engine, View(Apply(s, Execute(w)), w), row.key)
             <==> KeyHeld(s.engine, View(s, w), row.key) || !Has(View(s, w), PkOf(row)))
  {
    hide Honoured, Closed, Checked, Unique, Advance, Clash, Answer, PkOf, Has, KeyHeld;
    var t, row := s.sessions[w], Current(s.sessions[w]).row;
    SavepointRow(t);
    if AnswerTo(s, w) == Inserted {
      InsertedWorld(s, w);
      NowHeld(s.engine, View(s, w), row);
    } else {
      AdvanceHolds(t, Skipped);
      LoopSettles(s.engine, View(s, w), Pending(s, s.sessions.Keys - {w}), row);
      assert View(Apply(s, Execute(w)), w) == View(s, w);
    }
  }

  lemma SavepointRow(t: Session)
    requires Ready(t) && Staged(t) && Current(t).mode == Savepoint
    ensures Current(t).row.Observation?
  {
    assert t.program[t.pc] in t.program;
  }

  lemma NowHeld(engine: Engine, view: set<Row>, row: Row)
    requires row.Observation? && forall q :: q in view ==> !Clash(engine, row, q)
    ensures KeyHeld(engine, view + {row}, row.key) && !Has(view, PkOf(row))
  {
    assert row in view + {row};
    assert forall q :: PkOf(q) == PkOf(row) ==> Clash(engine, row, q);
  }

  // ----------------------------------------- when offering is safe

  /** Nobody in the schedule offers the row's identifier under another key. */
  ghost predicate Disciplined(engine: Engine, steps: seq<Step>, row: Row)
    requires row.Observation?
  {
    forall i, c :: 0 <= i < |steps| && steps[i].Open? && c in steps[i].program ==> Agrees(engine, c, row)
  }

  ghost predicate Agrees(engine: Engine, c: Call, row: Row)
    requires row.Observation?
  {
    forall r :: Offers(c, r) && r.Observation? && r.id == row.id ==> Same(engine, r.key, row.key)
  }

  /** In every such schedule a session that offered the row commits with its key stored. */
  ghost predicate KeptAtEveryCommit(engine: Engine, db: set<Row>, row: Row)
    requires row.Observation?
  {
    forall steps, w, j: nat ::
      Disciplined(engine, steps, row) && Enabled(Run(State(engine, db, map[]), steps), Commit(w))
      && j < |Run(State(engine, db, map[]), steps).sessions[w].program|
      && Offers(Run(State(engine, db, map[]), steps).sessions[w].program[j], row)
      ==> KeyHeld(engine, View(Run(State(engine, db, map[]), steps), w), row.key)
  }

  /** The identifier is free, or used under this key. */
  ghost predicate Follows(s: State, row: Row)
    requires row.Observation?
  {
    && (forall q :: q in World(s) && q.Observation? && q.id == row.id ==> Same(s.engine, q.key, row.key))
    && forall w, c :: w in s.sessions && c in s.sessions[w].program ==> Agrees(s.engine, c, row)
  }

  lemma StepFollows(s: State, step: Step, row: Row)
    requires Inv(s) && Enabled(s, step) && row.Observation? && Follows(s, row)
    requires step.Open? ==> forall c :: c in step.program ==> Agrees(s.engine, c, row)
    ensures Follows(Apply(s, step), row)
  {
    hide Honoured, Closed, Checked, Unique, Agrees, Staged;
    match step
    case Open(w, program) => OpenKeeps(s, w, program);
    case Execute(w) => ExecuteFollows(s, w, row);
    case _ =>
      var s' := Apply(s, step);
      assert World(s') <= World(s);
  }

  lemma ExecuteFollows(s: State, w: int, row: Row)
    requires Inv(s) && Enabled(s, Execute(w)) && row.Observation? && Follows(s, row)
    ensures Follows(Apply(s, Execute(w)), row)
  {
    hide Honoured, Closed, Checked, Unique, Staged, Answer, Advance;
    var t, s' := s.sessions[w], Apply(s, Execute(w));
    match AnswerTo(s, w)
    case Waits =>
    case Rejected(_) =>
      assert World(s') <= World(s);
      FollowsOn(s, s', {}, row);
    case Inserted =>
      InsertedWorld(s, w);
      CurrentIsOffered(t);
      SameProgram(t, Inserted);
      assert Agrees(s.engine, t.program[t.pc], row);
      FollowsOn(s, s', {Current(t).row}, row);
    case _ =>
      PassedWorld(s, w);
      SameProgram(t, AnswerTo(s, w));
      FollowsOn(s, s', {}, row);
  }

  lemma FollowsOn(s: State, s': State, added: set<Row>, row: Row)
    requires row.Observation? && Follows(s, row) && World(s') <= World(s) + added && s'.engine == s.engine
    requires forall q :: q in added && q.Observation? && q.id == row.id ==> Same(s.engine, q.key, row.key)
    requires forall v :: v in s'.sessions ==> v in s.sessions && s'.sessions[v].program == s.sessions[v].program
    ensures Follows(s', row)
  {
    hide Agrees;
  }

  lemma CurrentIsOffered(t: Session)
    requires Ready(t)
    ensures t.program[t.pc] in t.program && Offers(t.program[t.pc], Current(t).row)
  {
  }

  lemma SameProgram(t: Session, o: Outcome)
    requires Ready(t) && o in {Inserted, Skipped, FallsBack}
    ensures Advance(t, o).program == t.program
  {
  }

  lemma {:induction false} RunFollows(s: State, steps: seq<Step>, row: Row)
    requires Inv(s) && row.Observation? && Follows(s, row) && Disciplined(s.engine, steps, row)
    ensures Inv(Run(s, steps)) && Follows(Run(s, steps), row) && Run(s, steps).engine == s.engine
  {
    hide Inv, Follows, Apply, Enabled, Agrees;
    if steps != [] {
      var front, last := steps[..|steps| - 1], steps[|steps| - 1];
      RunFollows(s, front, row);
      if Enabled(Run(s, front), last) {
        assert last.Open? ==> forall c :: c in last.program ==> Agrees(s.engine, c, row);
        StepFollows(Run(s, front), last, row);
        StepKeeps(Run(s, front), last);
      }
    }
  }

  lemma FollowedKeyIsHeld(s: State, w: int, j: nat, row: Row)
    requires Inv(s) && row.Observation? && Follows(s, row) && Enabled(s, Commit(w))
    requires j < |s.sessions[w].program| && Offers(s.sessions[w].program[j], row)
    ensures KeyHeld(s.engine, View(s, w), row.key)
  {
    hide Honoured, Closed, Checked, Unique;
    OfferIsSettled(s.engine, Base(s, w), s.sessions[w], j, row);
    assert Base(s, w) <= View(s, w);
    SettledGrows(s.engine, Base(s, w), View(s, w), row);
    ViewInWorld(s, w);
    SettledOrTaken(s.engine, View(s, w), row);
  }

  /** One session appending this row alone, on a store where its identifier belongs to another key. */
  function LosingRun(row: Row): seq<Step> {
    [Open(0, [Many([row], 0)]), Execute(0), Execute(0)]
  }

  /** It gets to its commit with nothing to show for it. */
  lemma LosingRunLoses(engine: Engine, db: set<Row>, row: Row)
    requires row.Observation? && Checks(engine, row) && Has(db, PkOf(row))
    ensures var s := Run(State(engine, db, map[]), LosingRun(row));
            && Enabled(s, Commit(0)) && s.sessions[0].program == [Many([row], 0)]
            && Apply(s, Commit(0)).committed == db
  {
    var steps, s0 := LosingRun(row), State(engine, db, map[]);
    LosingSteps(engine, db, row);
    hide Apply, Enabled, Opened;
    assert steps[..1][..0] == [] && steps[..2][..1] == steps[..1];
    assert steps[..3] == steps && steps[..3][..2] == steps[..2];
    assert Run(s0, steps[..1]) == LosingState(engine, db, row, 0);
    assert Run(s0, steps[..2]) == LosingState(engine, db, row, 1);
    assert Run(s0, steps) == LosingState(engine, db, row, 2);
  }

  /** The states of that run. */
  function LosingState(engine: Engine, db: set<Row>, row: Row, n: nat): State {
    var program := [Many([row], 0)];
    var t := if n == 0 then Opened(program)
             else if n == 1 then Session(program, 0, Looping(0), [], {})
             else Session(program, 1, Trying, [], {});
    State(engine, db, map[0 := t])
  }

  lemma LosingSteps(engine: Engine, db: set<Row>, row: Row)
    requires row.Observation? && Checks(engine, row) && Has(db, PkOf(row))
    ensures Enabled(State(engine, db, map[]), Open(0, [Many([row], 0)]))
    ensures Apply(State(engine, db, map[]), Open(0, [Many([row], 0)])) == LosingState(engine, db, row, 0)
    ensures Enabled(LosingState(engine, db, row, 0), Execute(0))
    ensures Apply(LosingState(engine, db, row, 0), Execute(0)) == LosingState(engine, db, row, 1)
    ensures Enabled(LosingState(engine, db, row, 1), Execute(0))
    ensures Apply(LosingState(engine, db, row, 1), Execute(0)) == LosingState(engine, db, row, 2)
    ensures Enabled(LosingState(engine, db, row, 2), Commit(0))
    ensures Apply(LosingState(engine, db, row, 2), Commit(0)).committed == db
  {
    hide Answer;
    LosingAnswers(engine, db, row);
    LosingAdvances(row);
    var none: seq<Row> := [];
    assert Rows(none) == {};
    assert View(LosingState(engine, db, row, 0), 0) == db && View(LosingState(engine, db, row, 1), 0) == db
      && View(LosingState(engine, db, row, 2), 0) == db;
    assert Pending(LosingState(engine, db, row, 0), {}) == {} && Pending(LosingState(engine, db, row, 1), {}) == {};
    assert LosingState(engine, db, row, 0).sessions.Keys - {0} == {};
    assert LosingState(engine, db, row, 1).sessions.Keys - {0} == {};
  }

  lemma LosingAnswers(engine: Engine, db: set<Row>, row: Row)
    requires row.Observation? && Checks(engine, row) && Has(db, PkOf(row))
    ensures Answer(engine, db, {}, Statement(row, InBatch)) == FallsBack
    ensures Answer(engine, db, {}, Statement(row, Savepoint)) == Skipped
  {
    hide Checks, Refs;
    var q :| q in db && PkOf(q) == PkOf(row);
    assert Clash(engine, row, q);
  }

  lemma LosingAdvances(row: Row)
    ensures var t := Opened([Many([row], 0)]);
            && Ready(t) && Advance(t, FallsBack) == t.(stage := Looping(0))
            && Ready(t.(stage := Looping(0)))
            && Advance(t.(stage := Looping(0)), Skipped) == t.(pc := 1)
  {
    var none: seq<Row> := [];
    assert Rows(none[..0]) == {};
  }

  /**
   * Exactly when a session that offers an observation can rely on its key: if nobody offers its
   * identifier under another key meanwhile, the key is stored at every commit under every schedule
   * if and only if its identifier was free, or its key stored, to begin with.
   */
  lemma OfferIsSafeExactly(engine: Engine, db: set<Row>, row: Row)
    requires Consistent(engine, db) && row.Observation? && Checks(engine, row)
    ensures KeptAtEveryCommit(engine, db, row) <==> (Has(db, PkOf(row)) ==> KeyHeld(engine, db, row.key))
  {
    hide Inv, Follows, KeyHeld, Has, Run, Checks, Agrees, Disciplined;
    if Has(db, PkOf(row)) && !KeyHeld(engine, db, row.key) {
      UnsafeOffer(engine, db, row);
    } else {
      forall steps, w, j: nat | Disciplined(engine, steps, row)
          && Enabled(Run(State(engine, db, map[]), steps), Commit(w))
          && j < |Run(State(engine, db, map[]), steps).sessions[w].program|
          && Offers(Run(State(engine, db, map[]), steps).sessions[w].program[j], row)
        ensures KeyHeld(engine, View(Run(State(engine, db, map[]), steps), w), row.key)
      {
        SafeOffer(engine, db, row, steps, w, j);
      }
    }
  }

  lemma UnsafeOffer(engine: Engine, db: set<Row>, row: Row)
    requires row.Observation? && Checks(engine, row) && Has(db, PkOf(row)) && !KeyHeld(engine, db, row.key)
    ensures !KeptAtEveryCommit(engine, db, row)
  {
    hide Has, KeyHeld, Checks;
    LosingRunLoses(engine, db, row);
    var steps, s := LosingRun(row), Run(State(engine, db, map[]), LosingRun(row));
    hide Run;
    assert Disciplined(engine, steps, row);
    assert Offers(s.sessions[0].program[0], row);
    assert View(s, 0) == db;
  }

  lemma SafeOffer(engine: Engine, db: set<Row>, row: Row, steps: seq<Step>, w: int, j: nat)
    requires Consistent(engine, db) && row.Observation? && Disciplined(engine, steps, row)
    requires Has(db, PkOf(row)) ==> KeyHeld(engine, db, row.key)
    requires var s := Run(State(engine, db, map[]), steps);
             Enabled(s, Commit(w)) && j < |s.sessions[w].program| && Offers(s.sessions[w].program[j], row)
    ensures KeyHeld(engine, View(Run(State(engine, db, map[]), steps), w), row.key)
  {
    hide Inv, KeyHeld, Disciplined, Offers;
    var s0, s := State(engine, db, map[]), Run(State(engine, db, map[]), steps);
    StartHolds(engine, db);
    if KeyHeld(engine, db, row.key) {
      RunKeeps(s0, steps);
      KeyHeldMonotone(engine, db, View(s, w), row.key);
    } else {
      assert World(s0) == db;
      assert forall q :: q in db && q.Observation? && q.id == row.id ==> PkOf(q) == PkOf(row);
      RunFollows(s0, steps, row);
      FollowedKeyIsHeld(s, w, j, row);
    }
  }
}

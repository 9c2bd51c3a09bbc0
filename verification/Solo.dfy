/**
 * A session that appends observations the MariaDB way, with nobody else about, does what the code
 * over one connection does: the concurrent store and `insert_observations` (workload.py) agree.
 */
module Solo {
  import opened Schema
  import opened Store
  import opened Append
  import opened Writer

  function OnlySession(engine: Engine, db: set<Row>, t: Session): State {
    State(engine, db, map[0 := t])
  }

  function Turns(n: nat): seq<Step> {
    seq(n, i => Execute(0))
  }

  lemma {:induction false} RunAppend(s: State, a: seq<Step>, b: seq<Step>)
    ensures Run(s, a + b) == Run(Run(s, a), b)
  {
    if b == [] {
      assert a + b == a;
    } else {
      var front := b[..|b| - 1];
      assert (a + b)[..|a + b| - 1] == a + front;
      hide Enabled, Apply;
      RunAppend(s, a, front);
    }
  }

  /** One turn and then the others. */
  lemma FirstTurn(s: State, n: nat)
    requires Enabled(s, Execute(0))
    ensures Run(s, Turns(n + 1)) == Run(Apply(s, Execute(0)), Turns(n))
  {
    hide Enabled, Apply;
    assert Turns(n + 1) == [Execute(0)] + Turns(n);
    RunAppend(s, [Execute(0)], Turns(n));
    assert [Execute(0)][..0] == [];
  }

  lemma AnswerAlone(engine: Engine, db: set<Row>, t: Session)
    requires Ready(t)
    ensures AnswerTo(OnlySession(engine, db, t), 0) == Answer(engine, db + Held(t), {}, Current(t)) != Waits
  {
    assert OnlySession(engine, db, t).sessions.Keys - {0} == {};
    assert Pending(OnlySession(engine, db, t), {}) == {};
    NeverWaits(engine, db + Held(t), Current(t));
  }

  lemma NeverWaits(engine: Engine, view: set<Row>, st: Statement)
    ensures Answer(engine, view, {}, st) != Waits
  {
  }

  /** One statement of the only session. */
  lemma Turn(engine: Engine, db: set<Row>, t: Session)
    requires Ready(t)
    ensures Enabled(OnlySession(engine, db, t), Execute(0))
    ensures var o := Answer(engine, db + Held(t), {}, Current(t));
            && o != Waits
            && Apply(OnlySession(engine, db, t), Execute(0)) ==
               if o.Rejected? then State(engine, db, map[]) else OnlySession(engine, db, Advance(t, o))
  {
    hide Answer, Current, Held, Advance, AnswerTo;
    AnswerAlone(engine, db, t);
    assert OnlySession(engine, db, t).sessions - {0} == map[];
  }

  /** The statement forms, in terms of a plain INSERT of the same row. */
  lemma Forms(engine: Engine, view: set<Row>, row: Row)
    ensures var plain := Alone(engine, view, row, false);
            && plain in {Inserted, Rejected(CheckViolated), Rejected(Duplicate), Rejected(MissingReference)}
            && Answer(engine, view, {}, Statement(row, InBatch))
               == (if plain == Rejected(Duplicate) then FallsBack else plain)
            && Answer(engine, view, {}, Statement(row, Savepoint))
               == (if plain == Rejected(Duplicate) then Skipped else plain)
  {
    hide Checks, Clash, Refs, Has, KeyHeld;
  }

  /** The session is through with this table, or gone. */
  ghost predicate EndsLike(s: State, db: set<Row>, r: Result) {
    match r
    case Done(after, _) => 0 in s.sessions && s.sessions[0].pc == 1 && s.committed == db && View(s, 0) == after
    case Raised(_, _) => s == State(s.engine, db, map[])
  }

  function Looper(rows: seq<Row>, keep: nat, i: nat, pending: set<Row>): Session {
    Session([Many(rows, keep)], 0, Looping(i), [], pending)
  }

  lemma LoopAt(db: set<Row>, rows: seq<Row>, keep: nat, i: nat, pending: set<Row>)
    requires i < |rows|
    ensures Ready(Looper(rows, keep, i, pending))
    ensures Held(Looper(rows, keep, i, pending)) == pending
    ensures Current(Looper(rows, keep, i, pending)) == Statement(rows[i], Savepoint)
  {
    assert Rows([]) == {};
  }

  /** The loop after one row: at the next, or through. */
  lemma LoopMoves(rows: seq<Row>, keep: nat, i: nat, pending: set<Row>, o: Outcome)
    requires i < |rows| && o in {Inserted, Skipped}
    ensures var after := pending + if o == Inserted then {rows[i]} else {};
            Advance(Looper(rows, keep, i, pending), o) ==
            if i + 1 == |rows| then Session([Many(rows, keep)], 1, Trying, [], after)
            else Looper(rows, keep, i + 1, after)
  {
  }

  lemma Through(engine: Engine, db: set<Row>, rows: seq<Row>, keep: nat, pending: set<Row>, count: int)
    ensures var t := Session([Many(rows, keep)], 1, Trying, [], pending);
            EndsLike(OnlySession(engine, db, t), db, Done(db + pending, count))
  {
    assert Rows([]) == {};
  }

  lemma LastTurn(s: State)
    requires Enabled(s, Execute(0))
    ensures Run(s, Turns(1)) == Apply(s, Execute(0))
  {
    hide Enabled, Apply;
    FirstTurn(s, 0);
    assert Turns(0) == [];
  }

  lemma {:induction false} LoopRuns(engine: Engine, db: set<Row>, rows: seq<Row>, keep: nat, i: nat,
                                    pending: set<Row>, count: int)
    returns (n: nat)
    requires i < |rows|
    ensures EndsLike(Run(OnlySession(engine, db, Looper(rows, keep, i, pending)), Turns(n)), db,
                     RowByRow(engine, db + pending, count, rows[i..]))
    decreases |rows| - i
  {
    hide Enabled, Apply, Run, Alone, Answer, Advance, Held, Current, Turns, EndsLike;
    var t, plain := Looper(rows, keep, i, pending), Alone(engine, db + pending, rows[i], false);
    LoopAt(db, rows, keep, i, pending);
    Forms(engine, db + pending, rows[i]);
    Turn(engine, db, t);
    assert rows[i..][0] == rows[i] && rows[i..][1..] == rows[i + 1..];
    if plain !in {Inserted, Rejected(Duplicate)} {
      n := 1;
      LastTurn(OnlySession(engine, db, t));
      Gone(engine, db, plain.reason, |rows| - i);
    } else {
      var o := if plain == Inserted then Inserted else Skipped;
      var after := pending + if o == Inserted then {rows[i]} else {};
      var count' := if o == Inserted then count + 1 else count;
      LoopMoves(rows, keep, i, pending, o);
      assert db + after == if o == Inserted then db + pending + {rows[i]} else db + pending;
      if i + 1 == |rows| {
        n := 1;
        LastTurn(OnlySession(engine, db, t));
        assert rows[i + 1..] == [];
        Through(engine, db, rows, keep, after, count');
      } else {
        n := LoopRuns(engine, db, rows, keep, i + 1, after, count');
        FirstTurn(OnlySession(engine, db, t), n);
        n := n + 1;
      }
    }
  }

  lemma Gone(engine: Engine, db: set<Row>, reason: Reason, left: nat)
    ensures EndsLike(State(engine, db, map[]), db, Raised(reason, left))
  {
  }

  function Trier(rows: seq<Row>, keep: nat, i: nat): Session
    requires i <= |rows|
  {
    Session([Many(rows, keep)], 0, Trying, rows[..i], {})
  }

  lemma TryAt(rows: seq<Row>, keep: nat, i: nat)
    requires i < |rows|
    ensures Ready(Trier(rows, keep, i)) && Held(Trier(rows, keep, i)) == Rows(rows[..i])
    ensures Current(Trier(rows, keep, i)) == Statement(rows[i], InBatch)
  {
  }

  /** The many-row statement after one more row, and after a duplicate. */
  lemma TryMoves(rows: seq<Row>, keep: nat, i: nat)
    requires i < |rows|
    ensures Advance(Trier(rows, keep, i), Inserted) ==
            if i + 1 == |rows| then Session([Many(rows, keep)], 1, Trying, [], Rows(rows)) else Trier(rows, keep, i + 1)
    ensures Advance(Trier(rows, keep, i), FallsBack) == Looper(rows, keep, 0, Rows(rows[..Min(keep, i)]))
  {
    hide Rows;
    assert rows[..i] + [rows[i]] == rows[..i + 1];
    assert i + 1 == |rows| ==> rows[..i + 1] == rows;
    assert rows[..i][..Min(keep, i)] == rows[..Min(keep, i)];
  }

  /** What the form over one connection makes of the row that ends the many-row statement. */
  lemma FormAt(engine: Engine, db: set<Row>, rows: seq<Row>, i: nat)
    requires i < |rows| && Reaches(engine, db, rows, i)
    ensures var plain := Alone(engine, db + Rows(rows[..i]), rows[i], false);
            && (plain == Rejected(Duplicate) ==>
                  Executed(engine, db, 0, rows, false) == Raised(Duplicate, |rows| - i))
            && (plain == Rejected(Duplicate) ==> forall kept: nat :: kept <= |rows| ==>
                  MariaForm(engine, db, rows, kept) == RowByRow(engine, db + Rows(rows[..kept]), 0, rows))
            && (plain.Rejected? && plain != Rejected(Duplicate) ==>
                  MariaForm(engine, db, rows, 0) == Raised(plain.reason, |rows| - i))
            && (plain == Inserted && i + 1 == |rows| ==> MariaForm(engine, db, rows, 0) == Done(db + Rows(rows), i + 1))
  {
    hide Alone, RowByRow;
    OneMore(engine, db, rows, i, db + Rows(rows[..i]), i, false);
    if i + 1 == |rows| {
      assert rows[..i + 1] == rows;
      assert db + Rows(rows) == db + Rows(rows[..i]) + {rows[i]};
    }
  }

  lemma {:induction false} TryRuns(engine: Engine, db: set<Row>, rows: seq<Row>, keep: nat, i: nat)
    returns (n: nat, kept: nat)
    requires i < |rows| && ReachesAll(engine, db, rows, i)
    ensures kept <= |rows| && LeftBehind(engine, db, rows, kept)
    ensures EndsLike(Run(OnlySession(engine, db, Trier(rows, keep, i)), Turns(n)), db,
                     MariaForm(engine, db, rows, kept))
    decreases |rows| - i
  {
    hide Enabled, Apply, Run, Alone, Answer, Advance, Held, Current, Turns, EndsLike, MariaForm, RowByRow, Rows;
    var t, view := Trier(rows, keep, i), db + Rows(rows[..i]);
    var plain := Alone(engine, view, rows[i], false);
    TryAt(rows, keep, i);
    TryMoves(rows, keep, i);
    Forms(engine, view, rows[i]);
    Turn(engine, db, t);
    ReachesEarlier(engine, db, rows, i, i);
    FormAt(engine, db, rows, i);
    if plain == Inserted && i + 1 < |rows| {
      ReachesOneMore(engine, db, rows, i);
      n, kept := TryRuns(engine, db, rows, keep, i + 1);
      FirstTurn(OnlySession(engine, db, t), n);
      n := n + 1;
    } else if plain == Rejected(Duplicate) {
      kept := Min(keep, i);
      ReachesEarlier(engine, db, rows, kept, i);
      n := LoopRuns(engine, db, rows, keep, 0, Rows(rows[..kept]), 0);
      assert rows[0..] == rows;
      FirstTurn(OnlySession(engine, db, t), n);
      n := n + 1;
    } else {
      n, kept := 1, 0;
      LastTurn(OnlySession(engine, db, t));
      if plain == Inserted {
        Through(engine, db, rows, keep, Rows(rows), i + 1);
      } else {
        Gone(engine, db, plain.reason, |rows| - i);
      }
    }
  }

  /**
   * Run alone to its end, an append in the store leaves the table of `insert_observations` on one
   * connection, for some rows left behind that a failed batch can leave, and dies where that raises.
   */
  lemma AppendAlone(engine: Engine, db: set<Row>, rows: seq<Row>, keep: nat)
    requires engine.MariaDb? && Observations(rows) && rows != []
    ensures exists n, kept: nat ::
              && kept <= |rows| && LeftBehind(engine, db, rows, kept)
              && EndsLike(Run(State(engine, db, map[]), [Open(0, [Many(rows, keep)])] + Turns(n)), db,
                          ObservationForm(engine, db, rows, true, kept))
  {
    hide LeftBehind, MariaForm, Apply, EndsLike;
    ReachesNone(engine, db, rows);
    var n, kept := TryRuns(engine, db, rows, keep, 0);
    RunAppend(State(engine, db, map[]), [Open(0, [Many(rows, keep)])], Turns(n));
    OpenAlone(engine, db, rows, keep);
  }

  lemma OpenAlone(engine: Engine, db: set<Row>, rows: seq<Row>, keep: nat)
    requires Observations(rows) && rows != []
    ensures Run(State(engine, db, map[]), [Open(0, [Many(rows, keep)])])
         == OnlySession(engine, db, Trier(rows, keep, 0))
  {
    assert [Open(0, [Many(rows, keep)])][..0] == [];
    assert rows[..0] == [];
  }
}

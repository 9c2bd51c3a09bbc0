/**
 * Appending observations (workload.py, `insert_observations`): the PostgreSQL form leaves an existing
 * idempotency key to ON CONFLICT, the MariaDB form inserts the batch plainly and falls back to one
 * savepoint per row. Both are compared with one declarative account of what gets stored, each under
 * its own comparison of keys.
 */
module Append {
  import opened Schema
  import opened Store

  /** The table and a row count, or the failure and how many rows were not dealt with, the failing one included. */
  datatype Result = Done(db: set<Row>, count: int) | Raised(reason: Reason, left: nat)

  predicate Observations(rows: seq<Row>) {
    forall j :: 0 <= j < |rows| ==> rows[j].Observation?
  }

  function Alone(engine: Engine, db: set<Row>, row: Row, skip: bool): Outcome {
    Answer(engine, db, {}, Statement(row, if skip then OnConflict else Plain))
  }

  /** One statement per row up to the first failure; `n` rows were stored before. */
  function Executed(engine: Engine, db: set<Row>, n: int, rows: seq<Row>, skip: bool): Result
    decreases |rows|
  {
    if rows == [] then Done(db, n) else
      match Alone(engine, db, rows[0], skip)
      case Inserted => Executed(engine, db + {rows[0]}, n + 1, rows[1..], skip)
      case Rejected(reason) => Raised(reason, |rows|)
      case _ => Executed(engine, db, n, rows[1..], skip)
  }

  /** One savepoint per row: a duplicate is undone and passed over, any other failure goes up. */
  function RowByRow(engine: Engine, db: set<Row>, n: int, rows: seq<Row>): Result
    decreases |rows|
  {
    if rows == [] then Done(db, n) else
      match Alone(engine, db, rows[0], false)
      case Inserted => RowByRow(engine, db + {rows[0]}, n + 1, rows[1..])
      case Rejected(Duplicate) => RowByRow(engine, db, n, rows[1..])
      case Rejected(reason) => Raised(reason, |rows|)
      case _ => RowByRow(engine, db, n, rows[1..])
  }

  /** The MariaDB form when the failed batch leaves its first `kept` rows behind. */
  function MariaForm(engine: Engine, db: set<Row>, rows: seq<Row>, kept: nat): Result
    requires kept <= |rows|
  {
    match Executed(engine, db, 0, rows, false)
    case Raised(Duplicate, _) => RowByRow(engine, db + Rows(rows[..kept]), 0, rows)
    case result => result
  }

  function PostgresForm(db: set<Row>, rows: seq<Row>): Result {
    Executed(Postgres, db, 0, rows, true)
  }

  // ------------------------------------------------- what gets stored

  /** Row `j` brings a key that neither the table nor an earlier row of the batch has. */
  predicate IsNew(engine: Engine, db: set<Row>, rows: seq<Row>, j: nat)
    requires Observations(rows) && j < |rows|
  {
    !KeyHeld(engine, db, rows[j].key) && forall i :: 0 <= i < j ==> !Same(engine, rows[i].key, rows[j].key)
  }

  /** The indices of the new rows among the first `n`. */
  function NewIndices(engine: Engine, db: set<Row>, rows: seq<Row>, n: nat): set<nat>
    requires Observations(rows) && n <= |rows|
  {
    set j: nat | j < n && IsNew(engine, db, rows, j)
  }

  function NewRows(engine: Engine, db: set<Row>, rows: seq<Row>, n: nat): set<Row>
    requires Observations(rows) && n <= |rows|
  {
    set j | j in NewIndices(engine, db, rows, n) :: rows[j]
  }

  /** The table once the first `n` rows have been dealt with. */
  function TableAfter(engine: Engine, db: set<Row>, rows: seq<Row>, n: nat): set<Row>
    requires Observations(rows) && n <= |rows|
  {
    db + NewRows(engine, db, rows, n)
  }

  /** A new key under an identifier that is already used. */
  predicate IdTaken(engine: Engine, db: set<Row>, rows: seq<Row>, j: nat)
    requires Observations(rows) && j < |rows|
  {
    IsNew(engine, db, rows, j) && Has(TableAfter(engine, db, rows, j), PkOf(rows[j]))
  }

  /** Row `j` is stored, or passed over because its key is. */
  predicate Fine(engine: Engine, db: set<Row>, rows: seq<Row>, j: nat)
    requires Observations(rows) && j < |rows|
  {
    Checks(engine, rows[j]) &&
    (IsNew(engine, db, rows, j) ==> !IdTaken(engine, db, rows, j) && forall k :: k in Refs(rows[j]) ==> Has(db, k))
  }

  predicate AllFine(engine: Engine, db: set<Row>, rows: seq<Row>, n: nat)
    requires Observations(rows) && n <= |rows|
  {
    forall j :: 0 <= j < n ==> Fine(engine, db, rows, j)
  }

  // ------------------------------------------------------------ lemmas

  lemma HeldInTable(engine: Engine, db: set<Row>, rows: seq<Row>, n: nat, key: string)
    requires Observations(rows) && n <= |rows|
    ensures KeyHeld(engine, TableAfter(engine, db, rows, n), key) <==>
            KeyHeld(engine, db, key) || exists i :: 0 <= i < n && Same(engine, rows[i].key, key)
  {
    if KeyHeld(engine, db, key) {
      KeyHeldMonotone(engine, db, TableAfter(engine, db, rows, n), key);
    } else if exists i :: 0 <= i < n && Same(engine, rows[i].key, key) {
      var i := First(engine, rows, n, key);
      assert i in NewIndices(engine, db, rows, n);
      assert rows[i] in TableAfter(engine, db, rows, n);
    }
  }

  lemma First(engine: Engine, rows: seq<Row>, n: nat, key: string) returns (i: nat)
    requires Observations(rows) && n <= |rows| && exists j :: 0 <= j < n && Same(engine, rows[j].key, key)
    ensures i < n && Same(engine, rows[i].key, key) && forall j :: 0 <= j < i ==> !Same(engine, rows[j].key, key)
  {
    i := 0;
    while !Same(engine, rows[i].key, key)
      decreases n - i
      invariant i < n && forall j :: 0 <= j < i ==> !Same(engine, rows[j].key, key)
    {
      i := i + 1;
    }
  }

  lemma HasInTable(engine: Engine, db: set<Row>, rows: seq<Row>, n: nat, k: Key)
    requires Observations(rows) && n <= |rows| && k.table != ObservationT
    ensures Has(TableAfter(engine, db, rows, n), k) <==> Has(db, k)
  {
    if Has(db, k) {
      HasMonotone(db, TableAfter(engine, db, rows, n), k);
    }
  }

  lemma TableStep(engine: Engine, db: set<Row>, rows: seq<Row>, j: nat)
    requires Observations(rows) && j < |rows|
    ensures TableAfter(engine, db, rows, j + 1)
         == TableAfter(engine, db, rows, j) + if IsNew(engine, db, rows, j) then {rows[j]} else {}
    ensures NewIndices(engine, db, rows, j + 1)
         == NewIndices(engine, db, rows, j) + if IsNew(engine, db, rows, j) then {j} else {}
  {
    if IsNew(engine, db, rows, j) {
      assert NewIndices(engine, db, rows, j + 1) == NewIndices(engine, db, rows, j) + {j};
      assert NewRows(engine, db, rows, j + 1) == NewRows(engine, db, rows, j) + {rows[j]};
    } else {
      assert NewIndices(engine, db, rows, j + 1) == NewIndices(engine, db, rows, j);
    }
  }

  /** The database's answer at row `j`, in terms of the batch and the table before it. */
  lemma AnswerAt(engine: Engine, db: set<Row>, rows: seq<Row>, j: nat, skip: bool)
    requires Observations(rows) && j < |rows|
    ensures Alone(engine, TableAfter(engine, db, rows, j), rows[j], skip) ==
            if !Checks(engine, rows[j]) then Rejected(CheckViolated)
            else if !IsNew(engine, db, rows, j) then (if skip then Skipped else Rejected(Duplicate))
            else if IdTaken(engine, db, rows, j) then Rejected(Duplicate)
            else if Fine(engine, db, rows, j) then Inserted
            else Rejected(MissingReference)
  {
    var table, row := TableAfter(engine, db, rows, j), rows[j];
    HeldInTable(engine, db, rows, j, row.key);
    assert IsNew(engine, db, rows, j) <==> !KeyHeld(engine, table, row.key);
    ClashOfObservation(engine, table, row);
    forall k | k in Refs(row)
      ensures Has(table, k) <==> Has(db, k)
    {
      HasInTable(engine, db, rows, j, k);
    }
  }

  lemma FineAnswer(engine: Engine, db: set<Row>, rows: seq<Row>, j: nat, skip: bool)
    requires Observations(rows) && j < |rows| && Fine(engine, db, rows, j)
    ensures Alone(engine, TableAfter(engine, db, rows, j), rows[j], skip) ==
            if IsNew(engine, db, rows, j) then Inserted else if skip then Skipped else Rejected(Duplicate)
  {
    AnswerAt(engine, db, rows, j, skip);
  }

  lemma ClashOfObservation(engine: Engine, db: set<Row>, row: Row)
    requires row.Observation?
    ensures (exists q :: q in db && Clash(engine, row, q)) <==> KeyHeld(engine, db, row.key) || Has(db, PkOf(row))
  {
    if KeyHeld(engine, db, row.key) {
      var q :| q in db && q.Observation? && Same(engine, q.key, row.key);
      assert Clash(engine, row, q);
    }
    if Has(db, PkOf(row)) {
      var q :| q in db && PkOf(q) == PkOf(row);
      assert Clash(engine, row, q);
    }
    if exists q :: q in db && Clash(engine, row, q) {
      var q :| q in db && Clash(engine, row, q);
      assert q.Observation?;
    }
  }

  /** What an observation is answered. */
  lemma ObservationAnswer(engine: Engine, db: set<Row>, row: Row)
    requires row.Observation?
    ensures forall skip :: Alone(engine, db, row, skip) ==
              if !Checks(engine, row) then Rejected(CheckViolated)
              else if KeyHeld(engine, db, row.key) then (if skip then Skipped else Rejected(Duplicate))
              else if Has(db, PkOf(row)) then Rejected(Duplicate)
              else if forall k :: k in Refs(row) ==> Has(db, k) then Inserted
              else Rejected(MissingReference)
  {
    ClashOfObservation(engine, db, row);
    hide Checks, Has, KeyHeld, Refs, Clash;
  }

  /** One turn of either loop. */
  lemma Unroll(engine: Engine, db: set<Row>, n: int, rows: seq<Row>, j: nat)
    requires j < |rows|
    ensures Alone(engine, db, rows[j], true) == Inserted ==>
            Executed(engine, db, n, rows[j..], true) == Executed(engine, db + {rows[j]}, n + 1, rows[j + 1..], true)
    ensures Alone(engine, db, rows[j], true) == Skipped ==>
            Executed(engine, db, n, rows[j..], true) == Executed(engine, db, n, rows[j + 1..], true)
    ensures Alone(engine, db, rows[j], false) == Inserted ==>
            RowByRow(engine, db, n, rows[j..]) == RowByRow(engine, db + {rows[j]}, n + 1, rows[j + 1..])
    ensures Alone(engine, db, rows[j], false) == Rejected(Duplicate) ==>
            RowByRow(engine, db, n, rows[j..]) == RowByRow(engine, db, n, rows[j + 1..])
  {
    hide Alone;
    assert rows[j..][1..] == rows[j + 1..] && rows[j..][0] == rows[j];
  }

  /** Up to any fine prefix the PostgreSQL form has stored exactly the new rows of that prefix. */
  lemma {:induction false} PostgresPrefix(db: set<Row>, rows: seq<Row>, n: nat)
    requires Observations(rows) && n <= |rows| && AllFine(Postgres, db, rows, n)
    ensures PostgresForm(db, rows) ==
            Executed(Postgres, TableAfter(Postgres, db, rows, n), |NewIndices(Postgres, db, rows, n)|, rows[n..], true)
  {
    if n == 0 {
      assert TableAfter(Postgres, db, rows, 0) == db && NewIndices(Postgres, db, rows, 0) == {};
      assert rows[0..] == rows;
    } else {
      PostgresPrefix(db, rows, n - 1);
      PostgresStep(db, rows, n - 1);
    }
  }

  lemma PostgresStep(db: set<Row>, rows: seq<Row>, j: nat)
    requires Observations(rows) && j < |rows| && Fine(Postgres, db, rows, j)
    ensures Executed(Postgres, TableAfter(Postgres, db, rows, j), |NewIndices(Postgres, db, rows, j)|, rows[j..], true)
         == Executed(Postgres, TableAfter(Postgres, db, rows, j + 1), |NewIndices(Postgres, db, rows, j + 1)|,
                     rows[j + 1..], true)
  {
    NewStep(Postgres, db, rows, j);
    FineAnswer(Postgres, db, rows, j, true);
    hide Alone, Fine, IsNew, TableAfter, NewIndices;
    Unroll(Postgres, TableAfter(Postgres, db, rows, j), |NewIndices(Postgres, db, rows, j)|, rows, j);
  }

  lemma NewStep(engine: Engine, db: set<Row>, rows: seq<Row>, j: nat)
    requires Observations(rows) && j < |rows|
    ensures TableAfter(engine, db, rows, j + 1)
         == if IsNew(engine, db, rows, j) then TableAfter(engine, db, rows, j) + {rows[j]}
            else TableAfter(engine, db, rows, j)
    ensures |NewIndices(engine, db, rows, j + 1)|
         == |NewIndices(engine, db, rows, j)| + if IsNew(engine, db, rows, j) then 1 else 0
  {
    assert j !in NewIndices(engine, db, rows, j);
    TableStep(engine, db, rows, j);
    hide NewIndices, IsNew;
  }

  /** Why a row that is not fine is refused, unless its identifier is taken. */
  function Failure(engine: Engine, row: Row): Reason {
    if !Checks(engine, row) then CheckViolated else MissingReference
  }

  /** The first row the PostgreSQL form refuses, and why. */
  lemma PostgresFails(db: set<Row>, rows: seq<Row>, bad: nat)
    requires Observations(rows) && bad < |rows| && AllFine(Postgres, db, rows, bad) && !Fine(Postgres, db, rows, bad)
    ensures PostgresForm(db, rows)
         == Raised(if Checks(Postgres, rows[bad]) && IdTaken(Postgres, db, rows, bad) then Duplicate
                   else Failure(Postgres, rows[bad]), |rows| - bad)
  {
    PostgresPrefix(db, rows, bad);
    AnswerAt(Postgres, db, rows, bad, true);
    assert rows[bad..][0] == rows[bad];
  }

  /**
   * The PostgreSQL form is the left fold of insert-if-absent: when every row is fine it stores the
   * new rows and counts them, and otherwise it raises at the first row that is not.
   */
  lemma PostgresStoresNewRows(db: set<Row>, rows: seq<Row>)
    requires Observations(rows)
    ensures AllFine(Postgres, db, rows, |rows|) ==>
            PostgresForm(db, rows)
            == Done(TableAfter(Postgres, db, rows, |rows|), |NewIndices(Postgres, db, rows, |rows|)|)
    ensures forall j :: 0 <= j < |rows| && AllFine(Postgres, db, rows, j) && !Fine(Postgres, db, rows, j) ==>
            PostgresForm(db, rows)
            == Raised(if Checks(Postgres, rows[j]) && IdTaken(Postgres, db, rows, j) then Duplicate
                      else Failure(Postgres, rows[j]), |rows| - j)
  {
    hide Executed, TableAfter, NewIndices, Fine, IdTaken;
    if AllFine(Postgres, db, rows, |rows|) {
      PostgresPrefix(db, rows, |rows|);
      NothingLeftToDo(TableAfter(Postgres, db, rows, |rows|), |NewIndices(Postgres, db, rows, |rows|)|, rows);
    }
    forall j | 0 <= j < |rows| && AllFine(Postgres, db, rows, j) && !Fine(Postgres, db, rows, j)
      ensures PostgresForm(db, rows)
           == Raised(if Checks(Postgres, rows[j]) && IdTaken(Postgres, db, rows, j) then Duplicate
                     else Failure(Postgres, rows[j]), |rows| - j)
    {
      PostgresFails(db, rows, j);
    }
  }

  lemma NothingLeftToDo(db: set<Row>, n: int, rows: seq<Row>)
    ensures Executed(Postgres, db, n, rows[|rows|..], true) == Done(db, n)
  {
    assert rows[|rows|..] == [];
  }

  // ---------------------------------------------------------- the loop

  lemma {:induction false} LoopAppend(engine: Engine, db: set<Row>, n: int, a: seq<Row>, b: seq<Row>)
    ensures RowByRow(engine, db, n, a + b) ==
            match RowByRow(engine, db, n, a)
            case Done(db', m) => RowByRow(engine, db', m, b)
            case Raised(reason, left) => Raised(reason, left + |b|)
    decreases |a|
  {
    if a == [] {
      assert a + b == b;
    } else {
      hide Alone;
      assert (a + b)[0] == a[0] && (a + b)[1..] == a[1..] + b;
      LoopAppend(engine, db + {a[0]}, n + 1, a[1..], b);
      LoopAppend(engine, db, n, a[1..], b);
    }
  }

  lemma {:induction false} LoopCounts(engine: Engine, db: set<Row>, m: int, n: int, rows: seq<Row>)
    ensures RowByRow(engine, db, m, rows) ==
            match RowByRow(engine, db, n, rows)
            case Done(db', k) => Done(db', k - n + m)
            case Raised(reason, left) => Raised(reason, left)
    decreases |rows|
  {
    if rows != [] {
      hide Alone;
      LoopCounts(engine, db + {rows[0]}, m + 1, n + 1, rows[1..]);
      LoopCounts(engine, db, m, n, rows[1..]);
    }
  }

  /** The loop never raises a duplicate, and what it raises it raises at one of its rows. */
  lemma {:induction false} LoopRaises(engine: Engine, db: set<Row>, n: int, rows: seq<Row>)
    ensures var r := RowByRow(engine, db, n, rows);
            r.Raised? ==> r.reason != Duplicate && 0 < r.left <= |rows|
    decreases |rows|
  {
    if rows != [] {
      hide Alone;
      LoopRaises(engine, db + {rows[0]}, n + 1, rows[1..]);
      LoopRaises(engine, db, n, rows[1..]);
    }
  }

  /** Up to a duplicate the many-row statement does what the loop does. */
  lemma {:induction false} PlainIsLoop(engine: Engine, db: set<Row>, n: int, rows: seq<Row>)
    ensures var r := Executed(engine, db, n, rows, false);
            (r.Done? || r.reason != Duplicate) ==> RowByRow(engine, db, n, rows) == r
    decreases |rows|
  {
    if rows != [] {
      PlainAnswers(engine, db, rows[0]);
      hide Alone;
      PlainIsLoop(engine, db + {rows[0]}, n + 1, rows[1..]);
    }
  }

  lemma PlainAnswers(engine: Engine, db: set<Row>, row: Row)
    ensures Alone(engine, db, row, false) == Inserted || Alone(engine, db, row, false).Rejected?
  {
    hide Checks, Clash, Refs, Has, KeyHeld;
  }

  /** The first `kept` rows go in plainly, one after the other. */
  predicate Reaches(engine: Engine, db: set<Row>, rows: seq<Row>, kept: nat) {
    kept <= |rows| && Executed(engine, db, 0, rows[..kept], false) == Done(db + Rows(rows[..kept]), kept)
  }

  /** What a failed plain batch can leave behind on MariaDB: some of the rows before the failure. */
  predicate LeftBehind(engine: Engine, db: set<Row>, rows: seq<Row>, kept: nat) {
    kept > 0 ==> Reaches(engine, db, rows, kept) && Executed(engine, db, 0, rows, false).Raised?
  }

  /** Rows that went in are duplicates of themselves. */
  lemma {:induction false} LoopPasses(engine: Engine, db: set<Row>, n: int, rows: seq<Row>)
    requires forall r :: r in rows ==> r in db && Checks(engine, r)
    ensures RowByRow(engine, db, n, rows) == Done(db, n)
    decreases |rows|
  {
    if rows != [] {
      StoredIsDuplicate(engine, db, rows[0]);
      hide Alone, Checks;
      LoopPasses(engine, db, n, rows[1..]);
    }
  }

  lemma StoredIsDuplicate(engine: Engine, db: set<Row>, row: Row)
    requires row in db && Checks(engine, row)
    ensures Alone(engine, db, row, false) == Rejected(Duplicate)
  {
    assert Clash(engine, row, row);
  }

  lemma {:induction false} PlainChecked(engine: Engine, db: set<Row>, n: int, rows: seq<Row>)
    requires Executed(engine, db, n, rows, false).Done?
    ensures forall r :: r in rows ==> Checks(engine, r)
    decreases |rows|
  {
    if rows != [] {
      PlainAnswers(engine, db, rows[0]);
      assert Alone(engine, db, rows[0], false) == Inserted ==> Checks(engine, rows[0]);
      hide Alone, Checks;
      PlainChecked(engine, db + {rows[0]}, n + 1, rows[1..]);
    }
  }

  /**
   * Whatever a failed statement left behind, the MariaDB form is the savepoint loop over the table as
   * it was: the same table or the same failure, and the count short by the rows left behind.
   */
  lemma MariaIsTheLoop(engine: Engine, db: set<Row>, rows: seq<Row>, kept: nat)
    requires kept <= |rows| && LeftBehind(engine, db, rows, kept)
    ensures MariaForm(engine, db, rows, kept) ==
            match RowByRow(engine, db, 0, rows)
            case Done(table, n) => Done(table, n - kept)
            case Raised(reason, left) => Raised(reason, left)
  {
    PlainIsLoop(engine, db, 0, rows);
    if Executed(engine, db, 0, rows, false).Raised? && Executed(engine, db, 0, rows, false).reason == Duplicate {
      hide Executed, RowByRow, Rows;
      if kept == 0 {
        NoRows(db, rows);
      } else {
        Again(engine, db, rows, kept);
      }
    }
  }

  lemma NoRows(db: set<Row>, rows: seq<Row>)
    ensures db + Rows(rows[..0]) == db
  {
  }

  /** Going over rows left behind again changes nothing but the count. */
  lemma Again(engine: Engine, db: set<Row>, rows: seq<Row>, kept: nat)
    requires Reaches(engine, db, rows, kept)
    ensures RowByRow(engine, db + Rows(rows[..kept]), 0, rows) ==
            match RowByRow(engine, db, 0, rows)
            case Done(table, n) => Done(table, n - kept)
            case Raised(reason, left) => Raised(reason, left)
  {
    var front, back, table := rows[..kept], rows[kept..], db + Rows(rows[..kept]);
    assert rows == front + back;
    assert forall r :: r in front ==> r in table;
    hide RowByRow, Executed, Rows;
    PlainIsLoop(engine, db, 0, front);
    LoopAppend(engine, db, 0, front, back);
    PlainChecked(engine, db, 0, front);
    LoopPasses(engine, table, 0, front);
    LoopAppend(engine, table, 0, front, back);
    LoopCounts(engine, table, 0, kept, back);
  }

  /** The first row the loop cannot tolerate is the one the MariaDB form raises at, whatever was left behind. */
  lemma IntolerableRowRaises(engine: Engine, db: set<Row>, rows: seq<Row>, kept: nat, bad: nat, reason: Reason)
    requires kept <= |rows| && LeftBehind(engine, db, rows, kept) && bad < |rows|
    ensures MariaForm(engine, db, rows, kept) == Raised(reason, |rows| - bad) <==>
            reason != Duplicate && RowByRow(engine, db, 0, rows[..bad]).Done?
            && Alone(engine, RowByRow(engine, db, 0, rows[..bad]).db, rows[bad], false) == Rejected(reason)
  {
    hide MariaForm, Alone, LeftBehind;
    MariaIsTheLoop(engine, db, rows, kept);
    var front, back := rows[..bad], rows[bad..];
    assert rows == front + back && back[0] == rows[bad];
    LoopAppend(engine, db, 0, front, back);
    LoopRaises(engine, db, 0, front);
    LoopRaises(engine, db, 0, back[1..]);
    if RowByRow(engine, db, 0, front).Done? {
      var r := RowByRow(engine, db, 0, front);
      PlainAnswers(engine, r.db, rows[bad]);
      LoopRaises(engine, r.db + {rows[bad]}, r.count + 1, back[1..]);
      LoopRaises(engine, r.db, r.count, back[1..]);
    }
  }

  /**
   * What the loop stores: offered rows that clash neither with the table nor with each other, and so
   * many of them that every other offered row does clash with one that is stored.
   */
  lemma {:induction false} LoopStores(engine: Engine, db: set<Row>, n: int, rows: seq<Row>)
    requires RowByRow(engine, db, n, rows).Done?
    ensures var r := RowByRow(engine, db, n, rows);
            && db <= r.db <= db + Rows(rows) && r.count == n + |r.db - db|
            && (forall a, b :: a in r.db - db && b in r.db && a != b ==> !Clash(engine, a, b))
            && forall row :: row in rows ==> exists q :: q in r.db && Clash(engine, row, q)
    decreases |rows|
  {
    var r := RowByRow(engine, db, n, rows);
    if rows == [] {
      assert r.db - db == {};
    } else {
      var row, rest := rows[0], rows[1..];
      assert Rows(rows) == {row} + Rows(rest) by {
        assert rows == [row] + rest;
        FirstAndRest(row, rest);
      }
      PlainAnswers(engine, db, row);
      if Alone(engine, db, row, false) == Inserted {
        FreeToInsert(engine, db, row);
        hide Alone, Clash, Rows;
        LoopStores(engine, db + {row}, n + 1, rest);
        LoopClashes(engine, db, row, r.db);
      } else {
        Refused(engine, db, row);
        hide Alone, Clash, Rows;
        LoopStores(engine, db, n, rest);
      }
    }
  }

  lemma FirstAndRest(row: Row, rest: seq<Row>)
    ensures Rows([row] + rest) == {row} + Rows(rest)
  {
    var all := [row] + rest;
    assert all[0] == row && forall j :: 0 <= j < |rest| ==> all[j + 1] == rest[j];
    assert forall j :: 0 < j < |all| ==> all[j] == rest[j - 1];
  }

  lemma FreeToInsert(engine: Engine, db: set<Row>, row: Row)
    requires Alone(engine, db, row, false) == Inserted
    ensures row !in db && Clash(engine, row, row) && forall q :: q in db ==> !Clash(engine, row, q)
  {
    assert PkOf(row) == PkOf(row);
  }

  lemma Refused(engine: Engine, db: set<Row>, row: Row)
    ensures Alone(engine, db, row, false) == Rejected(Duplicate) ==> exists q :: q in db && Clash(engine, row, q)
  {
  }

  /** A row inserted on the way clashes with nothing stored before it, nor with anything after. */
  lemma LoopClashes(engine: Engine, db: set<Row>, row: Row, after: set<Row>)
    requires row !in db && db + {row} <= after && forall q :: q in db ==> !Clash(engine, row, q)
    requires forall a, b :: a in after - (db + {row}) && b in after && a != b ==> !Clash(engine, a, b)
    ensures forall a, b :: a in after - db && b in after && a != b ==> !Clash(engine, a, b)
    ensures |after - db| == |after - (db + {row})| + 1
  {
    assert after - db == (after - (db + {row})) + {row};
    assert forall a, b :: Clash(engine, a, b) ==> Clash(engine, b, a);
  }

  // ------------------------------------------------- the loop, declared

  lemma LoopStep(engine: Engine, db: set<Row>, rows: seq<Row>, j: nat)
    requires Observations(rows) && j < |rows| && Fine(engine, db, rows, j)
    ensures RowByRow(engine, TableAfter(engine, db, rows, j), |NewIndices(engine, db, rows, j)|, rows[j..])
         == RowByRow(engine, TableAfter(engine, db, rows, j + 1), |NewIndices(engine, db, rows, j + 1)|, rows[j + 1..])
  {
    NewStep(engine, db, rows, j);
    FineAnswer(engine, db, rows, j, false);
    hide Alone, Fine, IsNew, TableAfter, NewIndices;
    Unroll(engine, TableAfter(engine, db, rows, j), |NewIndices(engine, db, rows, j)|, rows, j);
  }

  /** Over a fine prefix the loop stores exactly the new rows of that prefix. */
  lemma {:induction false} LoopPrefix(engine: Engine, db: set<Row>, rows: seq<Row>, n: nat)
    requires Observations(rows) && n <= |rows| && AllFine(engine, db, rows, n)
    ensures RowByRow(engine, db, 0, rows) ==
            RowByRow(engine, TableAfter(engine, db, rows, n), |NewIndices(engine, db, rows, n)|, rows[n..])
  {
    if n == 0 {
      assert TableAfter(engine, db, rows, 0) == db && NewIndices(engine, db, rows, 0) == {};
      assert rows[0..] == rows;
    } else {
      LoopPrefix(engine, db, rows, n - 1);
      LoopStep(engine, db, rows, n - 1);
    }
  }

  lemma LoopResult(engine: Engine, db: set<Row>, rows: seq<Row>)
    requires Observations(rows) && AllFine(engine, db, rows, |rows|)
    ensures RowByRow(engine, db, 0, rows)
         == Done(TableAfter(engine, db, rows, |rows|), |NewIndices(engine, db, rows, |rows|)|)
  {
    LoopPrefix(engine, db, rows, |rows|);
    assert rows[|rows|..] == [];
  }

  // ------------------------------------------------- the two together

  /** Same rows stored, or the same failure raised at the same row. */
  predicate SameTable(a: Result, b: Result) {
    (a.Done? && b.Done? && a.db == b.db) || (a.Raised? && a == b)
  }

  /** The key is new, but not to the collation: it folds to a stored or an earlier key it is not equal to. */
  predicate Twin(engine: Engine, db: set<Row>, rows: seq<Row>, j: nat)
    requires Observations(rows) && j < |rows|
  {
    IsNew(Postgres, db, rows, j) && !IsNew(engine, db, rows, j)
  }

  predicate NoTwins(engine: Engine, db: set<Row>, rows: seq<Row>)
    requires Observations(rows)
  {
    forall j :: 0 <= j < |rows| ==> !Twin(engine, db, rows, j)
  }

  /** The row PostgreSQL refuses is refused by MariaDB: not for its identifier, and for no folded text. */
  predicate RefusedAlike(engine: Engine, db: set<Row>, rows: seq<Row>, bad: nat)
    requires Observations(rows) && bad < |rows|
  {
    if !Checks(Postgres, rows[bad]) then !Checks(engine, rows[bad])
    else !IdTaken(Postgres, db, rows, bad) && !Twin(engine, db, rows, bad)
  }

  /** The first row PostgreSQL refuses, if there is one, is refused alike. */
  predicate AlikeAtFailure(engine: Engine, db: set<Row>, rows: seq<Row>)
    requires Observations(rows)
  {
    forall j :: 0 <= j < |rows| && AllFine(Postgres, db, rows, j) && !Fine(Postgres, db, rows, j) ==>
      RefusedAlike(engine, db, rows, j)
  }

  /**
   * What makes a batch of observations the same on both engines. If PostgreSQL refuses a row, MariaDB
   * must refuse it too; if not, no key may fold to another one.
   */
  predicate Portable(engine: Engine, db: set<Row>, rows: seq<Row>)
    requires Observations(rows)
  {
    AlikeAtFailure(engine, db, rows) && (AllFine(Postgres, db, rows, |rows|) ==> NoTwins(engine, db, rows))
  }

  /** A key new to the collation is new. */
  lemma NewIsNew(engine: Engine, db: set<Row>, rows: seq<Row>, j: nat)
    requires Observations(rows) && j < |rows|
    ensures IsNew(engine, db, rows, j) ==> IsNew(Postgres, db, rows, j)
  {
    if KeyHeld(Postgres, db, rows[j].key) {
      var q :| q in db && q.Observation? && Same(Postgres, q.key, rows[j].key);
      assert Same(engine, q.key, rows[j].key);
    }
  }

  lemma TakenIsTaken(engine: Engine, db: set<Row>, rows: seq<Row>, j: nat)
    requires Observations(rows) && j < |rows|
    ensures IdTaken(engine, db, rows, j) ==> IdTaken(Postgres, db, rows, j)
  {
    forall i: nat | i <= j
      ensures IsNew(engine, db, rows, i) ==> IsNew(Postgres, db, rows, i)
    {
      NewIsNew(engine, db, rows, i);
    }
    assert TableAfter(engine, db, rows, j) <= TableAfter(Postgres, db, rows, j) by {
      hide IsNew;
    }
    if IdTaken(engine, db, rows, j) {
      HasMonotone(TableAfter(engine, db, rows, j), TableAfter(Postgres, db, rows, j), PkOf(rows[j]));
    }
  }

  lemma FineIsFine(engine: Engine, db: set<Row>, rows: seq<Row>, n: nat)
    requires Observations(rows) && n <= |rows| && AllFine(Postgres, db, rows, n)
    ensures AllFine(engine, db, rows, n)
  {
    hide IsNew, IdTaken, Checks, Refs, Has;
    forall j | 0 <= j < n
      ensures Fine(engine, db, rows, j)
    {
      NewIsNew(engine, db, rows, j);
      TakenIsTaken(engine, db, rows, j);
      MariaIsLooser(engine, rows[j], rows[j]);
      assert Fine(Postgres, db, rows, j);
    }
  }

  /** Two folds of the same rows are the same table exactly when no key folds to another one. */
  lemma TablesAgree(engine: Engine, db: set<Row>, rows: seq<Row>)
    requires Observations(rows)
    ensures TableAfter(engine, db, rows, |rows|) == TableAfter(Postgres, db, rows, |rows|) <==>
            NoTwins(engine, db, rows)
  {
    hide IsNew;
    var n := |rows|;
    forall j: nat | j < n
      ensures IsNew(engine, db, rows, j) ==> IsNew(Postgres, db, rows, j)
    {
      NewIsNew(engine, db, rows, j);
    }
    if NoTwins(engine, db, rows) {
      forall j: nat | j < n
        ensures IsNew(engine, db, rows, j) == IsNew(Postgres, db, rows, j)
      {
        assert !Twin(engine, db, rows, j);
      }
      assert NewIndices(engine, db, rows, n) == NewIndices(Postgres, db, rows, n);
    } else {
      var j: nat :| j < n && Twin(engine, db, rows, j);
      TwinIsLost(engine, db, rows, j);
    }
  }

  /** A row whose key folds to another one is stored by PostgreSQL and not by MariaDB. */
  lemma TwinIsLost(engine: Engine, db: set<Row>, rows: seq<Row>, j: nat)
    requires Observations(rows) && j < |rows| && Twin(engine, db, rows, j)
    ensures rows[j] in TableAfter(Postgres, db, rows, |rows|) && rows[j] !in TableAfter(engine, db, rows, |rows|)
  {
    assert j in NewIndices(Postgres, db, rows, |rows|);
    assert Same(Postgres, rows[j].key, rows[j].key);
    forall i: nat | i in NewIndices(engine, db, rows, |rows|)
      ensures rows[i] != rows[j]
    {
      assert i < j ==> !Same(Postgres, rows[i].key, rows[j].key);
      assert j < i ==> !Same(engine, rows[j].key, rows[i].key);
    }
  }

  /**
   * The savepoint loop leaves the same table as the PostgreSQL form, or raises the same failure at
   * the same row, exactly when the batch is portable.
   */
  lemma EnginesAgree(engine: Engine, db: set<Row>, rows: seq<Row>)
    requires Observations(rows)
    ensures SameTable(PostgresForm(db, rows), RowByRow(engine, db, 0, rows)) <==> Portable(engine, db, rows)
  {
    hide RowByRow, PostgresForm, TableAfter, NewIndices, Fine, Twin, RefusedAlike;
    PostgresStoresNewRows(db, rows);
    var bad := FirstBad(db, rows);
    if bad == |rows| {
      FineIsFine(engine, db, rows, |rows|);
      LoopResult(engine, db, rows);
      TablesAgree(engine, db, rows);
    } else {
      FailuresAgree(engine, db, rows, bad);
      assert AlikeAtFailure(engine, db, rows) <==> RefusedAlike(engine, db, rows, bad) by {
        OnlyThere(engine, db, rows, bad);
      }
    }
  }

  lemma FirstBad(db: set<Row>, rows: seq<Row>) returns (at: nat)
    requires Observations(rows)
    ensures at <= |rows| && AllFine(Postgres, db, rows, at)
    ensures at < |rows| ==> !Fine(Postgres, db, rows, at)
  {
    at := 0;
    while at < |rows| && Fine(Postgres, db, rows, at)
      invariant at <= |rows| && AllFine(Postgres, db, rows, at)
    {
      at := at + 1;
    }
  }

  lemma OnlyThere(engine: Engine, db: set<Row>, rows: seq<Row>, bad: nat)
    requires Observations(rows) && bad < |rows| && AllFine(Postgres, db, rows, bad) && !Fine(Postgres, db, rows, bad)
    ensures AlikeAtFailure(engine, db, rows) <==> RefusedAlike(engine, db, rows, bad)
  {
    hide Fine, RefusedAlike;
    forall j | 0 <= j < |rows| && AllFine(Postgres, db, rows, j) && !Fine(Postgres, db, rows, j)
      ensures j == bad
    {
      NotPast(db, rows, j, bad);
      NotPast(db, rows, bad, j);
    }
  }

  lemma NotPast(db: set<Row>, rows: seq<Row>, j: nat, bad: nat)
    requires Observations(rows) && j <= |rows| && bad < |rows|
    requires AllFine(Postgres, db, rows, j) && !Fine(Postgres, db, rows, bad)
    ensures j <= bad
  {
  }

  lemma FailuresAgree(engine: Engine, db: set<Row>, rows: seq<Row>, bad: nat)
    requires Observations(rows) && bad < |rows| && AllFine(Postgres, db, rows, bad) && !Fine(Postgres, db, rows, bad)
    ensures SameTable(PostgresForm(db, rows), RowByRow(engine, db, 0, rows)) <==>
            RefusedAlike(engine, db, rows, bad)
  {
    PostgresFails(db, rows, bad);
    FineIsFine(engine, db, rows, bad);
    LoopPrefix(engine, db, rows, bad);
    AnswerAt(engine, db, rows, bad, false);
    MariaIsLooser(engine, rows[bad], rows[bad]);
    NewIsNew(engine, db, rows, bad);
    TakenIsTaken(engine, db, rows, bad);
    var table, n := TableAfter(engine, db, rows, bad), |NewIndices(engine, db, rows, bad)|;
    hide Alone, TableAfter, NewIndices, PostgresForm, IsNew, IdTaken, Checks;
    assert rows[bad..][0] == rows[bad] && rows[bad..][1..] == rows[bad + 1..];
    LoopRaises(engine, table, n, rows[bad..]);
    LoopRaises(engine, table + {rows[bad]}, n + 1, rows[bad + 1..]);
    LoopRaises(engine, table, n, rows[bad + 1..]);
  }

  /**
   * One identifier, two keys: the PostgreSQL form refuses the batch, the MariaDB form reports
   * success and the second row is gone.
   */
  lemma ReusedIdentifierIsLost(engine: Engine, a: Row, key: string, db: set<Row>)
    requires a.Observation? && !Same(engine, a.key, key) && Checks(Postgres, a)
    requires !KeyHeld(engine, db, a.key) && !KeyHeld(engine, db, key) && !Has(db, PkOf(a))
    requires forall k :: k in Refs(a) ==> Has(db, k)
    ensures PostgresForm(db, [a, a.(key := key)]) == Raised(Duplicate, 1)
    ensures MariaForm(engine, db, [a, a.(key := key)], 0) == Done(db + {a}, 1)
  {
    var b := a.(key := key);
    TwoAnswers(Postgres, a, b, db);
    TwoAnswers(engine, a, b, db);
    hide Alone, PostgresForm, MariaForm;
    TwoRows(engine, db, a, b);
  }

  /**
   * Two keys, one to the collation: PostgreSQL stores both rows, and the MariaDB form reports success
   * and drops the second.
   */
  lemma FoldedKeyIsLost(engine: Engine, a: Row, id: int, key: string, db: set<Row>)
    requires a.Observation? && Same(engine, a.key, key) && a.key != key && a.id != id && Checks(Postgres, a)
    requires !KeyHeld(engine, db, a.key) && !Has(db, PkOf(a)) && !Has(db, Key(ObservationT, id))
    requires forall k :: k in Refs(a) ==> Has(db, k)
    ensures PostgresForm(db, [a, a.(id := id, key := key)]) == Done(db + {a, a.(id := id, key := key)}, 2)
    ensures MariaForm(engine, db, [a, a.(id := id, key := key)], 0) == Done(db + {a}, 1)
  {
    var b := a.(id := id, key := key);
    TwoAnswers(Postgres, a, b, db);
    TwoAnswers(engine, a, b, db);
    hide Alone, PostgresForm, MariaForm;
    TwoRows(engine, db, a, b);
    assert db + {a} + {b} == db + {a, b};
  }

  lemma TwoAnswers(engine: Engine, a: Row, b: Row, db: set<Row>)
    requires a.Observation? && b.Observation? && b == a.(id := b.id, key := b.key)
    requires Checks(Postgres, a) && !KeyHeld(engine, db, a.key)
    requires !Has(db, PkOf(a)) && forall k :: k in Refs(a) ==> Has(db, k)
    ensures Alone(engine, db, a, true) == Alone(engine, db, a, false) == Inserted
    ensures Same(engine, a.key, b.key) || a.id == b.id ==> Alone(engine, db + {a}, b, false) == Rejected(Duplicate)
    ensures !Same(engine, a.key, b.key) && !KeyHeld(engine, db, b.key) && a.id == b.id ==>
              Alone(engine, db + {a}, b, true) == Rejected(Duplicate)
    ensures !Same(engine, a.key, b.key) && !KeyHeld(engine, db, b.key) && !Has(db, PkOf(b)) && a.id != b.id ==>
              Alone(engine, db + {a}, b, true) == Inserted
  {
    var after := db + {a};
    MariaIsLooser(engine, a, a);
    SameReferences(a, b);
    AfterOne(engine, db, a, b);
    hide Checks, Has, KeyHeld, Refs;
    ObservationAnswer(engine, db, a);
    ObservationAnswer(engine, after, b);
  }

  lemma SameReferences(a: Row, b: Row)
    requires a.Observation? && b.Observation? && b == a.(id := b.id, key := b.key)
    ensures Refs(b) == Refs(a) && forall engine: Engine :: Checks(engine, b) == Checks(engine, a)
  {
  }

  lemma AfterOne(engine: Engine, db: set<Row>, a: Row, b: Row)
    requires a.Observation? && b.Observation?
    ensures KeyHeld(engine, db + {a}, b.key) <==> KeyHeld(engine, db, b.key) || Same(engine, a.key, b.key)
    ensures Has(db + {a}, PkOf(b)) <==> Has(db, PkOf(b)) || a.id == b.id
    ensures forall k :: Has(db, k) ==> Has(db + {a}, k)
  {
    assert a in db + {a};
    forall k | Has(db, k)
      ensures Has(db + {a}, k)
    {
      HasMonotone(db, db + {a}, k);
    }
    if KeyHeld(engine, db, b.key) {
      KeyHeldMonotone(engine, db, db + {a}, b.key);
    }
  }

  lemma TwoRows(engine: Engine, db: set<Row>, a: Row, b: Row)
    requires Alone(Postgres, db, a, true) == Inserted
    requires Alone(engine, db, a, false) == Inserted && Alone(engine, db + {a}, b, false) == Rejected(Duplicate)
    ensures Alone(Postgres, db + {a}, b, true) == Rejected(Duplicate) ==>
              PostgresForm(db, [a, b]) == Raised(Duplicate, 1)
    ensures Alone(Postgres, db + {a}, b, true) == Inserted ==> PostgresForm(db, [a, b]) == Done(db + {a} + {b}, 2)
    ensures MariaForm(engine, db, [a, b], 0) == Done(db + {a}, 1)
  {
    hide Alone;
    var rows := [a, b];
    assert rows[1..] == [b] && [b][1..] == [];
    assert Executed(Postgres, db, 0, rows, true) == Executed(Postgres, db + {a}, 1, [b], true);
    assert Executed(Postgres, db + {a} + {b}, 2, [b][1..], true) == Done(db + {a} + {b}, 2);
    assert Executed(engine, db, 0, rows, false) == Executed(engine, db + {a}, 1, [b], false);
    assert RowByRow(engine, db, 0, rows) == RowByRow(engine, db + {a}, 1, [b]);
    assert RowByRow(engine, db + {a}, 1, [b]) == RowByRow(engine, db + {a}, 1, []);
    assert db + Rows(rows[..0]) == db;
  }
}

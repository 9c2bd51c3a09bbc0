/**
 * The integrity checks of integrity.py that run on one connection at a time: what is refused, what a
 * refused transaction leaves behind, and offering one idempotency key twice.
 */
module Integrity {
  import opened Schema
  import opened Store
  import opened Append
  import opened Writer

  /** An observation is stored plainly exactly when no constraint is against it. */
  lemma StoredExactlyWhenValid(engine: Engine, db: set<Row>, row: Row)
    requires row.Observation?
    ensures Alone(engine, db, row, false) == Inserted <==>
            && row.currency.Some? && row.amount >= 0 && IsPriceType(engine, row.priceType)
            && !KeyHeld(engine, db, row.key) && !Has(db, PkOf(row))
            && Has(db, Key(CandidateT, row.candidateId)) && Has(db, Key(CardT, row.cardId))
            && Has(db, Key(ShopT, row.shopId)) && Has(db, Key(SourceT, row.sourceId))
            && Has(db, Key(RawArtifactT, row.rawArtifactId))
    ensures Alone(engine, db, row, false) == Inserted || Alone(engine, db, row, false).Rejected?
  {
    ClashOfObservation(engine, db, row);
    hide Has, KeyHeld, Clash;
  }

  /**
   * A case of `check_constraints`: a valid canary row, then the row under test, in one transaction.
   * When the second row breaks a constraint nothing of the transaction is left, the canary included.
   */
  method ConstraintCase(conn: Connection, canary: Row, bad: Row) returns (rejected: bool, canaryRows: nat)
    requires conn.view == conn.committed && conn.savepoints == []
    requires canary.Observation? && bad.Observation?
    requires Alone(conn.engine, conn.committed, canary, false) == Inserted
    modifies conn
    ensures conn.view == conn.committed && conn.savepoints == []
    ensures rejected <==> Alone(conn.engine, old(conn.committed) + {canary}, bad, false) != Inserted
    ensures conn.committed == old(conn.committed) + if rejected then {} else {canary, bad}
    ensures rejected ==> canaryRows == 0
  {
    var first := conn.Execute(canary, false);
    var second := conn.Execute(bad, false);
    rejected := second != Inserted;
    if rejected {
      conn.Rollback();
    } else {
      conn.Commit();
    }
    canaryRows := KeyCount(conn.engine, conn.committed, canary.key);
    if rejected {
      assert !KeyHeld(conn.engine, conn.committed, canary.key) by {
        StoredExactlyWhenValid(conn.engine, conn.committed, canary);
      }
      NoneHasIt(conn.engine, conn.committed, canary.key);
    }
  }

  function WithKey(engine: Engine, db: set<Row>, key: string): set<Row> {
    set r | r in db && r.Observation? && Same(engine, r.key, key)
  }

  function KeyCount(engine: Engine, db: set<Row>, key: string): nat {
    |WithKey(engine, db, key)|
  }

  lemma NoneHasIt(engine: Engine, db: set<Row>, key: string)
    requires !KeyHeld(engine, db, key)
    ensures WithKey(engine, db, key) == {}
  {
  }

  /**
   * `check_idempotent_sequential`: a row and then another one under the same key, each in its own
   * transaction, then the second again without the idempotent form. On either engine one row is
   * stored, the first, and the last attempt is refused.
   */
  method SequentialCase(conn: Connection, first: Row, second: Row) returns (stored: nat, refused: bool)
    requires conn.view == conn.committed && conn.savepoints == []
    requires first.Observation? && second.Observation? && first.key == second.key && Checks(conn.engine, second)
    requires Alone(conn.engine, conn.committed, first, false) == Inserted
    modifies conn
    ensures conn.committed == old(conn.committed) + {first}
    ensures stored == 1 && refused
  {
    ghost var db := conn.committed;
    OneStored(conn.engine, db, first, second);
    hide Alone, ObservationForm, KeyHeld, Checks;
    var r, kept := conn.InsertObservations([first], true);
    OneNew(db, first, conn.engine, kept);
    conn.Commit();
    r, kept := conn.InsertObservations([second], true);
    OneHeld(db + {first}, second, conn.engine, kept);
    conn.Commit();
    var o := conn.Execute(second, false);
    refused := o != Inserted;
    conn.Rollback();
    stored := KeyCount(conn.engine, conn.committed, first.key);
  }

  /** With the first row stored its key is held once, and the second is refused. */
  lemma OneStored(engine: Engine, db: set<Row>, first: Row, second: Row)
    requires first.Observation? && second.Observation? && first.key == second.key
    requires Alone(engine, db, first, false) == Inserted
    ensures KeyHeld(engine, db + {first}, second.key) && KeyCount(engine, db + {first}, first.key) == 1
    ensures Alone(engine, db + {first}, second, false) != Inserted
  {
    StoredExactlyWhenValid(engine, db, first);
    NoneHasIt(engine, db, first.key);
    assert first in db + {first};
    StoredExactlyWhenValid(engine, db + {first}, second);
    hide Alone;
    assert WithKey(engine, db + {first}, first.key) == WithKey(engine, db, first.key) + {first};
  }

  lemma OneNew(db: set<Row>, row: Row, engine: Engine, kept: nat)
    requires row.Observation? && Alone(engine, db, row, false) == Inserted && kept <= 1
    ensures ObservationForm(engine, db, [row], true, kept) == Done(db + {row}, 1)
  {
    var rows := [row];
    assert rows[1..] == [];
    StoredExactlyWhenValid(engine, db, row);
    assert Alone(engine, db, row, true) == Inserted;
    hide Alone;
    assert Executed(engine, db, 0, rows, true) == Executed(engine, db + {row}, 1, rows[1..], true);
    assert Executed(engine, db, 0, rows, false) == Executed(engine, db + {row}, 1, rows[1..], false);
  }

  lemma OneHeld(db: set<Row>, row: Row, engine: Engine, kept: nat)
    requires row.Observation? && Checks(engine, row) && KeyHeld(engine, db, row.key)
    requires kept <= 1 && LeftBehind(engine, db, [row], kept) && (engine.Postgres? ==> kept == 0)
    ensures ObservationForm(engine, db, [row], true, kept) == Done(db, 0)
  {
    NothingNew(engine, db, [row], kept);
  }
}

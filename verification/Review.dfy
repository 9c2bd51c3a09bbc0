/**
 * Optimistic review decisions (integrity.py, `_review_decider`): any number of sessions read a
 * review item's lock version and then update it if it is still pending at that version. An UPDATE
 * that matches holds the row lock to the end of its transaction, and another waits for it.
 */
module Review {
  datatype ItemState = Pending | Decided | Dismissed

  datatype Item = Item(state: ItemState, decidedBy: int, lockVersion: int)

  datatype Decider = Idle | HasRead(version: int) | Updated(rowcount: nat) | Done(rowcount: nat) | Failed

  /** The row is locked by a decider whose update has matched and is not committed yet. */
  datatype Lock = Free | Held(holder: int)

  datatype Contention = Contention(item: Item, deciders: map<int, Decider>, lock: Lock)

  datatype Step = Select(w: int) | Update(w: int) | Commit(w: int) | Abort(w: int) | ServerCrash

  function Begin(item: Item, ws: set<int>): Contention {
    Contention(item, map w | w in ws :: Idle, Free)
  }

  /** The WHERE clause of the update. */
  predicate Matches(item: Item, version: int) {
    item.state == Pending && item.lockVersion == version
  }

  function DecidedBy(item: Item, w: int): Item {
    Item(Decided, w, item.lockVersion + 1)
  }

  predicate Enabled(s: Contention, step: Step) {
    match step
    case Select(w) => w in s.deciders && s.deciders[w] == Idle
    case Update(w) => w in s.deciders && s.deciders[w].HasRead? && s.lock == Free
    case Commit(w) => w in s.deciders && s.deciders[w].Updated?
    case Abort(w) => w in s.deciders && !s.deciders[w].Done?
    case ServerCrash => true
  }

  /** A transaction that has not committed is lost in a crash. */
  function Lost(d: Decider): Decider {
    if d.Done? then d else Failed
  }

  function Released(lock: Lock, w: int): Lock {
    if lock == Held(w) then Free else lock
  }

  function Apply(s: Contention, step: Step): Contention
    requires Enabled(s, step)
  {
    match step
    case Select(w) => s.(deciders := s.deciders[w := HasRead(s.item.lockVersion)])
    case Update(w) =>
      if Matches(s.item, s.deciders[w].version)
      then s.(deciders := s.deciders[w := Updated(1)], lock := Held(w))
      else s.(deciders := s.deciders[w := Updated(0)])
    case Commit(w) =>
      var n := s.deciders[w].rowcount;
      Contention(if n == 1 then DecidedBy(s.item, w) else s.item, s.deciders[w := Done(n)], Released(s.lock, w))
    case Abort(w) => s.(deciders := s.deciders[w := Failed], lock := Released(s.lock, w))
    case ServerCrash => s.(deciders := map w | w in s.deciders :: Lost(s.deciders[w]), lock := Free)
  }

  /** A schedule; a step that is not possible when its turn comes is passed over. */
  function Run(s: Contention, steps: seq<Step>): Contention {
    if steps == [] then s else
      var before, last := Run(s, steps[..|steps| - 1]), steps[|steps| - 1];
      if Enabled(before, last) then Apply(before, last) else before
  }

  function Winners(s: Contention): set<int> {
    set w | w in s.deciders && s.deciders[w] == Done(1)
  }

  ghost predicate Inv(start: Item, s: Contention) {
    && (forall w :: w in s.deciders && s.deciders[w] == Updated(1) ==> s.lock == Held(w))
    && (s.lock.Held? ==> s.lock.holder in s.deciders && s.deciders[s.lock.holder] == Updated(1))
    && (forall w :: w in s.deciders && (s.deciders[w].Updated? || s.deciders[w].Done?) ==> s.deciders[w].rowcount <= 1)
    && (s.lock.Held? ==> s.item == start && s.item.state == Pending)
    && (forall w :: w in s.deciders && s.deciders[w].HasRead? && s.item.state == Pending ==>
          s.deciders[w].version == s.item.lockVersion)
    && (forall w :: w in s.deciders && s.deciders[w] in {Updated(0), Done(0)} ==> s.item.state != Pending)
    && ((Winners(s) == {} && s.item == start)
        || (exists w :: Winners(s) == {w} && start.state == Pending && s.item == DecidedBy(start, w)))
  }

  lemma StepKeeps(start: Item, s: Contention, step: Step)
    requires Inv(start, s) && Enabled(s, step)
    ensures Inv(start, Apply(s, step))
    ensures s.item.state != Pending ==> Apply(s, step).item == s.item
  {
    var s' := Apply(s, step);
    match step
    case Commit(w) =>
      if s.deciders[w] == Updated(1) {
        assert s.lock == Held(w) && Winners(s) == {};
        assert Winners(s') == {w};
      } else {
        assert Winners(s') == Winners(s);
      }
    case ServerCrash =>
      assert forall w :: w in s.deciders ==> s'.deciders[w] == Lost(s.deciders[w]);
      assert Winners(s') == Winners(s);
    case _ => assert Winners(s') == Winners(s);
  }

  lemma {:induction false} RunKeeps(start: Item, s: Contention, steps: seq<Step>)
    requires Inv(start, s)
    ensures Inv(start, Run(s, steps))
    ensures s.item.state != Pending ==> Run(s, steps).item == s.item
  {
    hide Inv, Apply;
    if steps != [] {
      var front := steps[..|steps| - 1];
      RunKeeps(start, s, front);
      if Enabled(Run(s, front), steps[|steps| - 1]) {
        StepKeeps(start, Run(s, front), steps[|steps| - 1]);
      }
    }
  }

  lemma BeginHolds(item: Item, ws: set<int>)
    ensures Inv(item, Begin(item, ws))
  {
    assert Winners(Begin(item, ws)) == {};
  }

  /**
   * Under any schedule of reads, updates, commits, aborts and crashes at most one decider commits a
   * one-row update, and only of an item that was pending; the lock version has gone up by the
   * number of winners; and as soon as any decider at all has committed, a pending item has its one
   * winner's decision.
   */
  lemma SingleWinner(item: Item, ws: set<int>, steps: seq<Step>)
    ensures var s := Run(Begin(item, ws), steps);
            && |Winners(s)| <= 1 && s.item.lockVersion == item.lockVersion + |Winners(s)|
            && (Winners(s) != {} ==> item.state == Pending)
            && (forall w :: w in Winners(s) ==> s.item.state == Decided && s.item.decidedBy == w)
            && (Winners(s) == {} ==> s.item == item)
            && (item.state == Pending && (exists w :: w in s.deciders && s.deciders[w].Done?) ==> |Winners(s)| == 1)
  {
    BeginHolds(item, ws);
    RunKeeps(item, Begin(item, ws), steps);
    var s := Run(Begin(item, ws), steps);
    if w :| w in s.deciders && s.deciders[w].Done? && item.state == Pending {
      assert s.deciders[w] == Done(0) || w in Winners(s);
    }
  }

  /** Once an item is no longer pending, nothing the deciders do changes it again. */
  lemma DecidedStays(item: Item, ws: set<int>, before: seq<Step>, after: seq<Step>)
    ensures var s := Run(Begin(item, ws), before);
            s.item.state != Pending ==> Run(s, after).item == s.item
  {
    BeginHolds(item, ws);
    RunKeeps(item, Begin(item, ws), before);
    RunKeeps(item, Run(Begin(item, ws), before), after);
  }
}

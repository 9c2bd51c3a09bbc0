/**
 * The shop comparison queries in both dialects (queries.py, QRY_01 and QRY_02) over a table scanned
 * in any physical order and filtered by the append-only correction log.
 */
module Queries {
  import opened Text
  import opened Schema
  import P = Percentile

  /** The columns of `price_observation` the queries read. */
  datatype Price = Price(id: int, card: int, shop: int, amount: int, currency: string, priceType: string,
                         observedAt: int)

  datatype Action = Invalidate | Supersede | Restore

  datatype Correction = Correction(id: int, observation: int, action: Action)

  /** Identifiers are primary keys. */
  ghost predicate DistinctIds(rows: seq<Price>) {
    forall i, j :: 0 <= i < j < |rows| ==> rows[i].id != rows[j].id
  }

  function CorrectionsOf(log: set<Correction>, observation: int): set<Correction> {
    set c | c in log && c.observation == observation
  }

  /** What ORDER BY id DESC LIMIT 1 finds. */
  predicate IsNewest(corrections: set<Correction>, c: Correction) {
    c in corrections && forall d :: d in corrections ==> d.id <= c.id
  }

  /** EFFECTIVE: the newest correction of the observation, if there is one, is a restore. */
  predicate Effective(log: set<Correction>, observation: int) {
    var corrections := CorrectionsOf(log, observation);
    corrections == {} || exists c :: c in corrections && IsNewest(corrections, c) && c.action == Restore
  }

  // ---------------------------------------------------------- filters

  function Where(rows: seq<Price>, keep: Price -> bool): seq<Price> {
    if rows == [] then [] else (if keep(rows[0]) then [rows[0]] else []) + Where(rows[1..], keep)
  }

  lemma {:induction false} WhereMembers(rows: seq<Price>, keep: Price -> bool)
    ensures forall o :: o in Where(rows, keep) <==> o in rows && keep(o)
  {
    if rows != [] {
      WhereMembers(rows[1..], keep);
      assert rows == [rows[0]] + rows[1..];
    }
  }

  lemma {:induction false} WhereCounts(rows: seq<Price>, keep: Price -> bool, o: Price)
    ensures multiset(Where(rows, keep))[o] == if keep(o) then multiset(rows)[o] else 0
  {
    if rows != [] {
      WhereCounts(rows[1..], keep, o);
      assert rows == [rows[0]] + rows[1..];
    }
  }

  lemma {:induction false} WhereDistinct(rows: seq<Price>, keep: Price -> bool)
    requires DistinctIds(rows)
    ensures DistinctIds(Where(rows, keep))
  {
    if rows != [] {
      var rest := Where(rows[1..], keep);
      assert DistinctIds(rows[1..]);
      WhereDistinct(rows[1..], keep);
      WhereMembers(rows[1..], keep);
      OthersDiffer(rows);
      PrependDistinct(rows[0], rest);
    }
  }

  lemma OthersDiffer(rows: seq<Price>)
    requires DistinctIds(rows) && rows != []
    ensures forall o :: o in rows[1..] ==> o.id != rows[0].id
  {
  }

  lemma PrependDistinct(o: Price, rest: seq<Price>)
    requires DistinctIds(rest) && forall x :: x in rest ==> x.id != o.id
    ensures DistinctIds([o] + rest)
  {
    assert forall j :: 0 <= j < |rest| ==> rest[j] in rest;
  }

  // ------------------------------------------------------ latest rows

  function PartitionOf(o: Price, byCard: bool): (int, int) {
    (if byCard then o.card else 0, o.shop)
  }

  /** ORDER BY observed_at DESC, id DESC */
  predicate Newer(a: Price, b: Price) {
    a.observedAt > b.observedAt || (a.observedAt == b.observedAt && a.id > b.id)
  }

  /** The ORDER BY of DISTINCT ON: the partition, then the newest first. */
  predicate SortsBefore(a: Price, b: Price, byCard: bool) {
    var p, q := PartitionOf(a, byCard), PartitionOf(b, byCard);
    if p.0 != q.0 then p.0 < q.0
    else if p.1 != q.1 then p.1 < q.1
    else Newer(a, b)
  }

  function Insert(o: Price, s: seq<Price>, byCard: bool): seq<Price> {
    if s == [] then [o]
    else if SortsBefore(o, s[0], byCard) then [o] + s
    else [s[0]] + Insert(o, s[1..], byCard)
  }

  function Sort(s: seq<Price>, byCard: bool): seq<Price> {
    if s == [] then [] else Insert(s[0], Sort(s[1..], byCard), byCard)
  }

  /** DISTINCT ON keeps the first row of every partition. */
  function FirstOfEach(s: seq<Price>, byCard: bool): seq<Price> {
    if |s| <= 1 then s else
      var front, n := FirstOfEach(s[..|s| - 1], byCard), |s|;
      if PartitionOf(s[n - 1], byCard) == PartitionOf(s[n - 2], byCard) then front else front + [s[n - 1]]
  }

  function PostgresLatest(rows: seq<Price>, byCard: bool): seq<Price> {
    FirstOfEach(Sort(rows, byCard), byCard)
  }

  /** ROW_NUMBER() OVER (PARTITION BY ... ORDER BY observed_at DESC, id DESC) */
  function RowNumber(rows: seq<Price>, o: Price, byCard: bool): nat {
    if rows == [] then 1 else
      RowNumber(rows[1..], o, byCard)
        + if PartitionOf(rows[0], byCard) == PartitionOf(o, byCard) && Newer(rows[0], o) then 1 else 0
  }

  function FirstRanked(all: seq<Price>, byCard: bool): Price -> bool {
    (o: Price) => RowNumber(all, o, byCard) == 1
  }

  /** WHERE rn = 1 */
  function MariaLatest(rows: seq<Price>, byCard: bool): seq<Price> {
    Where(rows, FirstRanked(rows, byCard))
  }

  /** What both are meant to compute: the newest row of its partition. */
  ghost predicate IsLatest(rows: seq<Price>, o: Price, byCard: bool) {
    o in rows && forall x :: x in rows && PartitionOf(x, byCard) == PartitionOf(o, byCard) ==> !Newer(x, o)
  }

  ghost predicate Ordered(s: seq<Price>, byCard: bool) {
    forall i, j :: 0 <= i < j < |s| ==> SortsBefore(s[i], s[j], byCard)
  }

  lemma {:induction false} InsertKeeps(o: Price, s: seq<Price>, byCard: bool)
    ensures multiset(Insert(o, s, byCard)) == multiset{o} + multiset(s)
    ensures |Insert(o, s, byCard)| == |s| + 1
  {
    if s != [] && !SortsBefore(o, s[0], byCard) {
      InsertKeeps(o, s[1..], byCard);
      assert s == [s[0]] + s[1..];
    }
  }

  lemma Members(s: seq<Price>, t: seq<Price>)
    requires multiset(s) == multiset(t)
    ensures forall o :: o in s <==> o in t
  {
    assert forall o :: o in s <==> o in multiset(s);
    assert forall o :: o in t <==> o in multiset(t);
  }

  lemma {:induction false} InsertOrders(o: Price, s: seq<Price>, byCard: bool)
    requires Ordered(s, byCard) && forall x :: x in s ==> x.id != o.id
    ensures Ordered(Insert(o, s, byCard), byCard)
  {
    if s != [] && !SortsBefore(o, s[0], byCard) {
      var rest := Insert(o, s[1..], byCard);
      InsertOrders(o, s[1..], byCard);
      InsertKeeps(o, s[1..], byCard);
      OneOrOther(o, s[0], byCard);
      hide SortsBefore, PartitionOf, Newer;
      forall x | x in rest
        ensures SortsBefore(s[0], x, byCard)
      {
        assert x in multiset(rest);
        assert x == o || x in s[1..];
      }
      PrependOrdered(s[0], rest, byCard);
    } else if s != [] {
      forall x | x in s
        ensures SortsBefore(o, x, byCard)
      {
        BeforeAll(o, s, x, byCard);
      }
      PrependOrdered(o, s, byCard);
    }
  }

  lemma OneOrOther(a: Price, b: Price, byCard: bool)
    requires a.id != b.id
    ensures SortsBefore(a, b, byCard) || SortsBefore(b, a, byCard)
  {
  }

  lemma BeforeAll(o: Price, s: seq<Price>, x: Price, byCard: bool)
    requires Ordered(s, byCard) && x in s && SortsBefore(o, s[0], byCard)
    ensures SortsBefore(o, x, byCard)
  {
    assert x == s[0] || SortsBefore(s[0], x, byCard);
  }

  lemma PrependOrdered(o: Price, rest: seq<Price>, byCard: bool)
    requires Ordered(rest, byCard) && forall x :: x in rest ==> SortsBefore(o, x, byCard)
    ensures Ordered([o] + rest, byCard)
  {
    hide SortsBefore;
    assert forall j :: 0 <= j < |rest| ==> rest[j] in rest;
  }

  lemma {:induction false} SortOrders(s: seq<Price>, byCard: bool)
    requires DistinctIds(s)
    ensures Ordered(Sort(s, byCard), byCard) && multiset(Sort(s, byCard)) == multiset(s)
  {
    if s != [] {
      var rest := Sort(s[1..], byCard);
      assert DistinctIds(s[1..]);
      SortOrders(s[1..], byCard);
      Members(rest, s[1..]);
      InsertOrders(s[0], rest, byCard);
      InsertKeeps(s[0], rest, byCard);
      assert s == [s[0]] + s[1..];
    }
  }

  /** In a sorted table the first row of a partition is its newest. */
  lemma {:induction false} FirstIsLatest(s: seq<Price>, byCard: bool)
    requires Ordered(s, byCard)
    ensures forall o :: o in FirstOfEach(s, byCard) <==> IsLatest(s, o, byCard)
    ensures Ordered(FirstOfEach(s, byCard), byCard)
  {
    hide PartitionOf, SortsBefore, Newer;
    if |s| > 1 {
      var front, last := s[..|s| - 1], s[|s| - 1];
      FirstIsLatest(front, byCard);
      LastOfSorted(s, byCard);
      assert s == front + [last];
      OneMoreRow(front, last, byCard);
      forall x | x in FirstOfEach(front, byCard)
        ensures SortsBefore(x, last, byCard)
      {
        assert IsLatest(front, x, byCard);
      }
    } else if |s| == 1 {
      assert s == [s[0]];
      AloneIsLatest(s[0], byCard);
    }
  }

  lemma AloneIsLatest(o: Price, byCard: bool)
    ensures forall x :: IsLatest([o], x, byCard) <==> x == o
  {
  }

  /** A row that comes last is the newest of its partition exactly if it is the only one. */
  lemma OneMoreRow(front: seq<Price>, last: Price, byCard: bool)
    requires forall x :: x in front ==> !(PartitionOf(x, byCard) == PartitionOf(last, byCard) && Newer(last, x))
    requires forall x :: x in front && PartitionOf(x, byCard) == PartitionOf(last, byCard) ==> Newer(x, last)
    ensures forall o :: IsLatest(front + [last], o, byCard) <==>
              || IsLatest(front, o, byCard)
              || (o == last && forall x :: x in front ==> PartitionOf(x, byCard) != PartitionOf(last, byCard))
  {
    hide PartitionOf;
    forall o
      ensures IsLatest(front + [last], o, byCard) <==>
              || IsLatest(front, o, byCard)
              || (o == last && forall x :: x in front ==> PartitionOf(x, byCard) != PartitionOf(last, byCard))
    {
      assert last in front + [last];
      assert forall x :: x in front ==> x in front + [last];
    }
  }

  /** The last row is the first of its partition exactly when the row before is of another one. */
  lemma LastOfSorted(s: seq<Price>, byCard: bool)
    requires Ordered(s, byCard) && |s| > 1
    ensures var front, last := s[..|s| - 1], s[|s| - 1];
            && (forall x :: x in front ==>
                  SortsBefore(x, last, byCard)
                  && !(PartitionOf(x, byCard) == PartitionOf(last, byCard) && Newer(last, x))
                  && (PartitionOf(x, byCard) == PartitionOf(last, byCard) ==> Newer(x, last)))
            && (PartitionOf(s[|s| - 2], byCard) == PartitionOf(last, byCard) <==>
                  exists x :: x in front && PartitionOf(x, byCard) == PartitionOf(last, byCard))
  {
    var front, last, prior := s[..|s| - 1], s[|s| - 1], s[|s| - 2];
    assert prior in front;
    forall x | x in front && PartitionOf(x, byCard) == PartitionOf(last, byCard)
      ensures PartitionOf(prior, byCard) == PartitionOf(last, byCard)
    {
      assert x == prior || SortsBefore(x, prior, byCard);
      assert SortsBefore(prior, last, byCard);
    }
  }

  lemma {:induction false} RankOne(rows: seq<Price>, o: Price, byCard: bool)
    ensures RowNumber(rows, o, byCard) >= 1
    ensures RowNumber(rows, o, byCard) == 1 <==>
            forall x :: x in rows && PartitionOf(x, byCard) == PartitionOf(o, byCard) ==> !Newer(x, o)
  {
    if rows != [] {
      RankOne(rows[1..], o, byCard);
      assert rows == [rows[0]] + rows[1..];
    }
  }

  lemma OnceEach(s: seq<Price>, o: Price)
    requires forall i, j :: 0 <= i < j < |s| ==> s[i] != s[j]
    ensures multiset(s)[o] == if o in s then 1 else 0
  {
    if s != [] {
      OnceEach(s[1..], o);
      assert s == [s[0]] + s[1..];
    }
  }

  /** DISTINCT ON and ROW_NUMBER pick the same rows, whatever order the table is scanned in. */
  lemma LatestAgree(p: seq<Price>, m: seq<Price>, byCard: bool)
    requires DistinctIds(p) && DistinctIds(m) && multiset(p) == multiset(m)
    ensures multiset(PostgresLatest(p, byCard)) == multiset(MariaLatest(m, byCard))
  {
    var s := Sort(p, byCard);
    SortOrders(p, byCard);
    Members(s, m);
    FirstIsLatest(s, byCard);
    WhereMembers(m, FirstRanked(m, byCard));
    WhereDistinct(m, FirstRanked(m, byCard));
    var a, b := PostgresLatest(p, byCard), MariaLatest(m, byCard);
    forall o
      ensures multiset(a)[o] == multiset(b)[o]
    {
      RankOne(m, o, byCard);
      NeverBeforeItself(a, byCard);
      OnceEach(a, o);
      OnceEach(b, o);
    }
  }

  lemma NeverBeforeItself(s: seq<Price>, byCard: bool)
    requires Ordered(s, byCard)
    ensures forall i, j :: 0 <= i < j < |s| ==> s[i] != s[j]
  {
  }

  // -------------------------------------------------------- aggregates

  function MaxOf(s: seq<int>): Option<int> {
    if s == [] then None else
      var rest := MaxOf(s[1..]);
      if rest.None? || s[0] > rest.value then Some(s[0]) else rest
  }

  function MinOf(s: seq<int>): Option<int> {
    if s == [] then None else
      var rest := MinOf(s[1..]);
      if rest.None? || s[0] < rest.value then Some(s[0]) else rest
  }

  /** MAX of a nullable real column. */
  function MaxReal(s: seq<Option<real>>): Option<real> {
    if s == [] then None else
      var rest := MaxReal(s[1..]);
      if rest.None? || (s[0].Some? && s[0].value > rest.value) then s[0] else rest
  }

  function Column<T>(rows: seq<Price>, of: Price -> T): seq<T> {
    seq(|rows|, i requires 0 <= i < |rows| => of(rows[i]))
  }

  function AmountOf(o: Price): int {
    o.amount
  }

  function RealAmountOf(o: Price): real {
    o.amount as real
  }

  function TimeOf(o: Price): int {
    o.observedAt
  }

  /** One line of the result; an aggregate over no rows is NULL, a count is 0. */
  datatype Answer = Answer(shopCount: nat, maxAmount: Option<int>, minAmount: Option<int>,
                           median: Option<real>, freshest: Option<int>)

  /** PostgreSQL: percentile_cont(0.5) WITHIN GROUP (ORDER BY amount_minor) */
  function PostgresAnswer(latest: seq<Price>): Answer {
    Answer(|latest|, MaxOf(Column(latest, AmountOf)), MinOf(Column(latest, AmountOf)),
           P.Percentile(Column(latest, RealAmountOf), 0.5), MaxOf(Column(latest, TimeOf)))
  }

  /** MariaDB: MEDIAN(amount_minor) OVER () repeated on every row, then MAX of that column. */
  function MariaAnswer(latest: seq<Price>): Answer {
    var median := P.Median(Column(latest, RealAmountOf));
    Answer(|latest|, MaxOf(Column(latest, AmountOf)), MinOf(Column(latest, AmountOf)),
           MaxReal(seq(|latest|, i => median)), MaxOf(Column(latest, TimeOf)))
  }

  lemma {:induction false} MaxBounds(s: seq<int>)
    ensures MaxOf(s).None? <==> s == []
    ensures s != [] ==> MaxOf(s).value in s && forall x :: x in s ==> x <= MaxOf(s).value
    ensures MinOf(s).None? <==> s == []
    ensures s != [] ==> MinOf(s).value in s && forall x :: x in s ==> MinOf(s).value <= x
  {
    if s != [] {
      MaxBounds(s[1..]);
      assert s == [s[0]] + s[1..];
    }
  }

  lemma ExtremesForgetOrder(s: seq<int>, t: seq<int>)
    requires multiset(s) == multiset(t)
    ensures MaxOf(s) == MaxOf(t) && MinOf(s) == MinOf(t)
  {
    hide MaxOf, MinOf;
    MaxBounds(s);
    MaxBounds(t);
    SameInts(s, t);
    if s != [] {
      assert t != [];
      var a, b := MaxOf(t).value, MinOf(t).value;
      assert a in t && b in t;
      assert a in s && b in s;
    }
  }

  lemma SameInts(s: seq<int>, t: seq<int>)
    requires multiset(s) == multiset(t)
    ensures |s| == |t| && forall x :: x in s <==> x in t
  {
    assert forall x :: x in s <==> x in multiset(s);
    assert forall x :: x in t <==> x in multiset(t);
    assert |multiset(s)| == |s| && |multiset(t)| == |t|;
  }

  /** A repeated value is its own maximum, and NULL over no rows. */
  lemma {:induction false} MaxOfRepeated(n: nat, x: Option<real>)
    ensures MaxReal(seq(n, i => x)) == if n == 0 then None else x
  {
    var s := seq(n, i => x);
    if n > 0 {
      assert s[1..] == seq(n - 1, i => x);
      MaxOfRepeated(n - 1, x);
    }
  }

  /** A column of a permuted table is a permutation of the column. */
  lemma {:induction false} ColumnPermutes<T>(s: seq<Price>, t: seq<Price>, of: Price -> T)
    requires multiset(s) == multiset(t)
    ensures multiset(Column(s, of)) == multiset(Column(t, of))
    decreases |s|
  {
    hide Column;
    if s != [] {
      var j := Elsewhere(s, t);
      ColumnPermutes(s[1..], t[..j] + t[j + 1..], of);
      assert s[..0] + s[1..] == s[1..];
      ColumnWithout(s, 0, of);
      ColumnWithout(t, j, of);
    } else {
      assert |multiset(t)| == 0;
      assert t == s;
    }
  }

  /** The first row of one table is somewhere in the other, and the rest permute. */
  lemma Elsewhere(s: seq<Price>, t: seq<Price>) returns (j: nat)
    requires multiset(s) == multiset(t) && s != []
    ensures j < |t| && t[j] == s[0] && multiset(s[1..]) == multiset(t[..j] + t[j + 1..])
  {
    assert s[0] in multiset(t);
    j :| j < |t| && t[j] == s[0];
    assert multiset(s) == multiset(s[1..]) + multiset{s[0]} by {
      assert s[..0] + s[1..] == s[1..];
      Without(s, 0);
    }
    Without(t, j);
    Cancel(multiset(s[1..]), multiset(t[..j] + t[j + 1..]), s[0]);
  }

  lemma Cancel(a: multiset<Price>, b: multiset<Price>, o: Price)
    requires a + multiset{o} == b + multiset{o}
    ensures a == b
  {
    assert a == (a + multiset{o}) - multiset{o} && b == (b + multiset{o}) - multiset{o};
  }

  lemma Without(t: seq<Price>, j: nat)
    requires j < |t|
    ensures multiset(t) == multiset(t[..j] + t[j + 1..]) + multiset{t[j]}
  {
    assert t == t[..j] + [t[j]] + t[j + 1..];
  }

  lemma ColumnWithout<T>(t: seq<Price>, j: nat, of: Price -> T)
    requires j < |t|
    ensures multiset(Column(t, of)) == multiset(Column(t[..j] + t[j + 1..], of)) + multiset{of(t[j])}
  {
    var c := Column(t, of);
    assert c == c[..j] + [c[j]] + c[j + 1..];
    assert Column(t[..j] + t[j + 1..], of) == c[..j] + c[j + 1..];
  }

  lemma AnswersAgree(p: seq<Price>, m: seq<Price>)
    requires multiset(p) == multiset(m)
    ensures PostgresAnswer(p) == MariaAnswer(m)
  {
    ColumnPermutes(p, m, AmountOf);
    ColumnPermutes(p, m, RealAmountOf);
    ColumnPermutes(p, m, TimeOf);
    ExtremesForgetOrder(Column(p, AmountOf), Column(m, AmountOf));
    ExtremesForgetOrder(Column(p, TimeOf), Column(m, TimeOf));
    P.PercentileForgetsOrder(Column(p, RealAmountOf), Column(m, RealAmountOf), 0.5);
    P.HalfIsMedian(Column(m, RealAmountOf));
    MaxOfRepeated(|m|, P.Median(Column(m, RealAmountOf)));
    assert |multiset(p)| == |p| && |multiset(m)| == |m|;
  }

  /** The result of a group does not depend on the order of its rows. */
  lemma AnswerForgetsOrder(p: seq<Price>, m: seq<Price>)
    requires multiset(p) == multiset(m)
    ensures PostgresAnswer(p) == PostgresAnswer(m)
  {
    hide PostgresAnswer, MariaAnswer;
    AnswersAgree(p, m);
    AnswersAgree(m, m);
  }

  // ----------------------------------------------------------- queries

  predicate Wanted01(engine: Engine, o: Price, card: int, log: set<Correction>) {
    o.card == card && Same(engine, o.priceType, "buy") && Same(engine, o.currency, "JPY") && Effective(log, o.id)
  }

  /** QRY_02 asks for several cards and does not look at the currency. */
  predicate Wanted02(engine: Engine, o: Price, cards: set<int>, log: set<Correction>) {
    o.card in cards && Same(engine, o.priceType, "buy") && Effective(log, o.id)
  }

  function Keep01(engine: Engine, card: int, log: set<Correction>): Price -> bool {
    (o: Price) => Wanted01(engine, o, card, log)
  }

  function Keep02(engine: Engine, cards: set<int>, log: set<Correction>): Price -> bool {
    (o: Price) => Wanted02(engine, o, cards, log)
  }

  function IsCard(card: int): Price -> bool {
    (o: Price) => o.card == card
  }

  function Rows01(engine: Engine, rows: seq<Price>, log: set<Correction>, card: int): seq<Price> {
    Where(rows, Keep01(engine, card, log))
  }

  function Rows02(engine: Engine, rows: seq<Price>, log: set<Correction>, cards: set<int>): seq<Price> {
    Where(rows, Keep02(engine, cards, log))
  }

  function Postgres01(rows: seq<Price>, log: set<Correction>, card: int): Answer {
    PostgresAnswer(PostgresLatest(Rows01(Postgres, rows, log, card), false))
  }

  function Maria01(engine: Engine, rows: seq<Price>, log: set<Correction>, card: int): Answer {
    MariaAnswer(MariaLatest(Rows01(engine, rows, log, card), false))
  }

  function OfCard(latest: seq<Price>, card: int): seq<Price> {
    Where(latest, IsCard(card))
  }

  /** GROUP BY card_identity_id */
  function Grouped(latest: seq<Price>, answer: seq<Price> -> Answer): map<int, Answer> {
    map card | card in (set o: Price | o in latest :: o.card) :: answer(OfCard(latest, card))
  }

  function Postgres02(rows: seq<Price>, log: set<Correction>, cards: set<int>): map<int, Answer> {
    Grouped(PostgresLatest(Rows02(Postgres, rows, log, cards), true), PostgresAnswer)
  }

  function Maria02(engine: Engine, rows: seq<Price>, log: set<Correction>, cards: set<int>): map<int, Answer> {
    Grouped(MariaLatest(Rows02(engine, rows, log, cards), true), MariaAnswer)
  }

  lemma WherePermutes(p: seq<Price>, m: seq<Price>, keep: Price -> bool)
    requires multiset(p) == multiset(m)
    ensures multiset(Where(p, keep)) == multiset(Where(m, keep))
  {
    forall o
      ensures multiset(Where(p, keep))[o] == multiset(Where(m, keep))[o]
    {
      WhereCounts(p, keep, o);
      WhereCounts(m, keep, o);
    }
  }

  // --------------------------------------------- the two dialects

  /** What QRY_01 picks on MariaDB says "buy" and "JPY" itself, and is not just taken for it. */
  ghost predicate NewestExact01(engine: Engine, rows: seq<Price>, log: set<Correction>, card: int) {
    forall o :: IsLatest(Rows01(engine, rows, log, card), o, false) ==> o.priceType == "buy" && o.currency == "JPY"
  }

  ghost predicate NewestExact02(engine: Engine, rows: seq<Price>, log: set<Correction>, cards: set<int>) {
    forall o :: IsLatest(Rows02(engine, rows, log, cards), o, true) ==> o.priceType == "buy"
  }

  /** What DISTINCT ON picks, once each. */
  lemma PostgresPicksLatest(rows: seq<Price>, byCard: bool)
    requires DistinctIds(rows)
    ensures forall o :: o in PostgresLatest(rows, byCard) <==> IsLatest(rows, o, byCard)
    ensures forall o :: multiset(PostgresLatest(rows, byCard))[o]
              == if IsLatest(rows, o, byCard) then 1 else 0
  {
    var s := Sort(rows, byCard);
    SortOrders(rows, byCard);
    Members(s, rows);
    FirstIsLatest(s, byCard);
    NeverBeforeItself(FirstOfEach(s, byCard), byCard);
    forall o
      ensures o in PostgresLatest(rows, byCard) <==> IsLatest(rows, o, byCard)
      ensures multiset(PostgresLatest(rows, byCard))[o] == if IsLatest(rows, o, byCard) then 1 else 0
    {
      OnceEach(FirstOfEach(s, byCard), o);
    }
  }

  /** A row is its partition's newest, or some other row is. */
  lemma {:induction false} NewestOf(rows: seq<Price>, o: Price, byCard: bool) returns (z: Price)
    requires o in rows && DistinctIds(rows)
    ensures IsLatest(rows, z, byCard) && PartitionOf(z, byCard) == PartitionOf(o, byCard)
    ensures z == o || Newer(z, o)
  {
    hide PartitionOf;
    var rest := rows[1..];
    assert rows == [rows[0]] + rest;
    if o in rest {
      z := NewestOf(rest, o, byCard);
    } else {
      z := o;
      if x :| x in rest && PartitionOf(x, byCard) == PartitionOf(o, byCard) {
        z := NewestOf(rest, x, byCard);
        if Newer(o, z) {
          z := o;
        }
      }
    }
    if PartitionOf(rows[0], byCard) == PartitionOf(o, byCard) && Newer(rows[0], z) {
      z := rows[0];
    }
  }

  /** The newest rows of a part of the table are those of the whole exactly when these are in the part. */
  lemma LatestOfPart(all: seq<Price>, part: seq<Price>, byCard: bool)
    requires DistinctIds(all) && DistinctIds(part) && forall x :: x in part ==> x in all
    ensures multiset(PostgresLatest(part, byCard)) == multiset(PostgresLatest(all, byCard)) <==>
            forall o :: IsLatest(all, o, byCard) ==> o in part
  {
    hide PostgresLatest, IsLatest;
    PostgresPicksLatest(all, byCard);
    PostgresPicksLatest(part, byCard);
    var a, b := PostgresLatest(part, byCard), PostgresLatest(all, byCard);
    if multiset(a) == multiset(b) {
      Members(a, b);
      InTheTable(part, byCard);
    } else if forall o :: IsLatest(all, o, byCard) ==> o in part {
      forall o
        ensures multiset(a)[o] == multiset(b)[o]
      {
        LatestInPart(all, part, byCard, o);
      }
    }
  }

  lemma InTheTable(rows: seq<Price>, byCard: bool)
    ensures forall o :: IsLatest(rows, o, byCard) ==> o in rows
  {
  }

  lemma LatestInPart(all: seq<Price>, part: seq<Price>, byCard: bool, o: Price)
    requires DistinctIds(all) && forall x :: x in part ==> x in all
    requires forall x :: IsLatest(all, x, byCard) ==> x in part
    ensures IsLatest(part, o, byCard) <==> IsLatest(all, o, byCard)
  {
    if IsLatest(part, o, byCard) {
      var z := NewestOf(all, o, byCard);
      assert z in part;
    }
  }

  /** The rows PostgreSQL reads are among those MariaDB reads. */
  lemma Rows01Nested(engine: Engine, p: seq<Price>, m: seq<Price>, log: set<Correction>, card: int)
    requires DistinctIds(p) && DistinctIds(m) && multiset(p) == multiset(m)
    ensures var all, part := Rows01(engine, m, log, card), Rows01(Postgres, p, log, card);
            && DistinctIds(all) && DistinctIds(part)
            && forall x :: x in part <==> x in all && x.priceType == "buy" && x.currency == "JPY"
  {
    hide Effective;
    Members(p, m);
    WhereDistinct(p, Keep01(Postgres, card, log));
    WhereDistinct(m, Keep01(engine, card, log));
    WhereMembers(p, Keep01(Postgres, card, log));
    WhereMembers(m, Keep01(engine, card, log));
  }

  lemma Rows02Nested(engine: Engine, p: seq<Price>, m: seq<Price>, log: set<Correction>, cards: set<int>)
    requires DistinctIds(p) && DistinctIds(m) && multiset(p) == multiset(m)
    ensures var all, part := Rows02(engine, m, log, cards), Rows02(Postgres, p, log, cards);
            && DistinctIds(all) && DistinctIds(part)
            && forall x :: x in part <==> x in all && x.priceType == "buy"
  {
    hide Effective;
    Members(p, m);
    WhereDistinct(p, Keep02(Postgres, cards, log));
    WhereDistinct(m, Keep02(engine, cards, log));
    WhereMembers(p, Keep02(Postgres, cards, log));
    WhereMembers(m, Keep02(engine, cards, log));
  }

  /**
   * Over one table both dialects of QRY_01 pick the same rows, in whatever order it is scanned,
   * exactly when no row MariaDB picks merely folds to the price type or the currency asked for.
   */
  lemma Query01Picks(engine: Engine, p: seq<Price>, m: seq<Price>, log: set<Correction>, card: int)
    requires DistinctIds(p) && DistinctIds(m) && multiset(p) == multiset(m)
    ensures (multiset(PostgresLatest(Rows01(Postgres, p, log, card), false))
             == multiset(MariaLatest(Rows01(engine, m, log, card), false)))
            <==> NewestExact01(engine, m, log, card)
  {
    hide PostgresLatest, MariaLatest, Rows01, IsLatest;
    var all, part := Rows01(engine, m, log, card), Rows01(Postgres, p, log, card);
    Rows01Nested(engine, p, m, log, card);
    LatestAgree(all, all, false);
    LatestOfPart(all, part, false);
    InTheTable(all, false);
  }

  /** QRY_02 likewise, by card and shop; it asks for the price type only. */
  lemma Query02Picks(engine: Engine, p: seq<Price>, m: seq<Price>, log: set<Correction>, cards: set<int>)
    requires DistinctIds(p) && DistinctIds(m) && multiset(p) == multiset(m)
    ensures (multiset(PostgresLatest(Rows02(Postgres, p, log, cards), true))
             == multiset(MariaLatest(Rows02(engine, m, log, cards), true)))
            <==> NewestExact02(engine, m, log, cards)
  {
    hide PostgresLatest, MariaLatest, Rows02, IsLatest;
    var all, part := Rows02(engine, m, log, cards), Rows02(Postgres, p, log, cards);
    Rows02Nested(engine, p, m, log, cards);
    LatestAgree(all, all, true);
    LatestOfPart(all, part, true);
    InTheTable(all, true);
  }

  /**
   * QRY_01 has one result: where the rows picked are the same, DISTINCT ON with percentile_cont and
   * ROW_NUMBER with MEDIAN give the same shop count, extremes, median and freshness, also when no
   * row qualifies.
   */
  lemma Query01Agrees(engine: Engine, p: seq<Price>, m: seq<Price>, log: set<Correction>, card: int)
    requires DistinctIds(p) && DistinctIds(m) && multiset(p) == multiset(m)
    requires NewestExact01(engine, m, log, card)
    ensures Postgres01(p, log, card) == Maria01(engine, m, log, card)
  {
    hide PostgresAnswer, MariaAnswer, PostgresLatest, MariaLatest, NewestExact01, Rows01;
    Query01Picks(engine, p, m, log, card);
    AnswersAgree(PostgresLatest(Rows01(Postgres, p, log, card), false),
                 MariaLatest(Rows01(engine, m, log, card), false));
  }

  lemma GroupsAgree(p: seq<Price>, m: seq<Price>)
    requires multiset(p) == multiset(m)
    ensures Grouped(p, PostgresAnswer) == Grouped(m, MariaAnswer)
  {
    hide PostgresAnswer, MariaAnswer;
    Members(p, m);
    forall card | card in (set o: Price | o in p :: o.card)
      ensures PostgresAnswer(OfCard(p, card)) == MariaAnswer(OfCard(m, card))
    {
      WherePermutes(p, m, IsCard(card));
      AnswersAgree(OfCard(p, card), OfCard(m, card));
    }
    assert (set o: Price | o in p :: o.card) == (set o: Price | o in m :: o.card);
  }

  /** QRY_02 likewise: the same cards appear, each with the same line. */
  lemma Query02Agrees(engine: Engine, p: seq<Price>, m: seq<Price>, log: set<Correction>, cards: set<int>)
    requires DistinctIds(p) && DistinctIds(m) && multiset(p) == multiset(m)
    requires NewestExact02(engine, m, log, cards)
    ensures Postgres02(p, log, cards) == Maria02(engine, m, log, cards)
  {
    hide Grouped, PostgresLatest, MariaLatest, NewestExact02, Rows02;
    Query02Picks(engine, p, m, log, cards);
    GroupsAgree(PostgresLatest(Rows02(Postgres, p, log, cards), true),
                MariaLatest(Rows02(engine, m, log, cards), true));
  }

  // -------------------------------------------- one card against many

  /** Every shop's newest row of this card, whatever its currency, is in yen. */
  ghost predicate NewestInYen(rows: seq<Price>, log: set<Correction>, cards: set<int>, card: int) {
    forall o :: IsLatest(Rows02(Postgres, rows, log, cards), o, true) && o.card == card ==> o.currency == "JPY"
  }

  /** QRY_01 reads the yen rows of the card QRY_02 reads. */
  lemma OneOfMany(rows: seq<Price>, log: set<Correction>, cards: set<int>, card: int)
    requires DistinctIds(rows) && card in cards
    ensures var many, one := Rows02(Postgres, rows, log, cards), Rows01(Postgres, rows, log, card);
            && DistinctIds(many) && DistinctIds(one)
            && forall x :: x in one <==> x in many && x.card == card && x.currency == "JPY"
  {
    hide Effective;
    WhereDistinct(rows, Keep02(Postgres, cards, log));
    WhereDistinct(rows, Keep01(Postgres, card, log));
    WhereMembers(rows, Keep02(Postgres, cards, log));
    WhereMembers(rows, Keep01(Postgres, card, log));
  }

  /** The newest rows per card and shop, in yen: the newest rows in yen per shop. */
  lemma LatestInBoth(many: seq<Price>, one: seq<Price>, card: int, o: Price)
    requires DistinctIds(many)
    requires forall x :: x in one <==> x in many && x.card == card && x.currency == "JPY"
    requires forall x :: IsLatest(many, x, true) && x.card == card ==> x.currency == "JPY"
    ensures IsLatest(one, o, false) <==> IsLatest(many, o, true) && o.card == card
  {
    if IsLatest(one, o, false) {
      var z := NewestOf(many, o, true);
      assert z in one;
    }
  }

  /**
   * Grouping by card and shop and then taking one card picks what taking the card's yen rows and
   * grouping by shop picks, exactly when every shop's newest row of the card is in yen.
   */
  lemma LatestOfOneCard(rows: seq<Price>, log: set<Correction>, cards: set<int>, card: int)
    requires DistinctIds(rows) && card in cards
    ensures (multiset(OfCard(PostgresLatest(Rows02(Postgres, rows, log, cards), true), card))
             == multiset(PostgresLatest(Rows01(Postgres, rows, log, card), false)))
            <==> NewestInYen(rows, log, cards, card)
  {
    hide PostgresLatest, Rows01, Rows02, IsLatest;
    var many, one := Rows02(Postgres, rows, log, cards), Rows01(Postgres, rows, log, card);
    var a, b := OfCard(PostgresLatest(many, true), card), PostgresLatest(one, false);
    OneOfMany(rows, log, cards, card);
    PostgresPicksLatest(many, true);
    PostgresPicksLatest(one, false);
    WhereMembers(PostgresLatest(many, true), IsCard(card));
    if multiset(a) == multiset(b) {
      Members(a, b);
      InTheTable(one, false);
    } else if NewestInYen(rows, log, cards, card) {
      forall o
        ensures multiset(a)[o] == multiset(b)[o]
      {
        WhereCounts(PostgresLatest(many, true), IsCard(card), o);
        LatestInBoth(many, one, card, o);
      }
    }
  }

  /**
   * Where every shop's newest row of a card is in yen, the card's line in QRY_02 is the answer of
   * QRY_01, and the card is missing from QRY_02 exactly when QRY_01 counts no shop.
   */
  lemma ManyCardsAsOne(rows: seq<Price>, log: set<Correction>, cards: set<int>, card: int)
    requires DistinctIds(rows) && card in cards && NewestInYen(rows, log, cards, card)
    ensures card in Postgres02(rows, log, cards) <==> Postgres01(rows, log, card).shopCount != 0
    ensures card in Postgres02(rows, log, cards) ==>
              Postgres02(rows, log, cards)[card] == Postgres01(rows, log, card)
  {
    hide PostgresLatest, Rows01, Rows02, NewestInYen;
    var many := PostgresLatest(Rows02(Postgres, rows, log, cards), true);
    var one := PostgresLatest(Rows01(Postgres, rows, log, card), false);
    LatestOfOneCard(rows, log, cards, card);
    WhereMembers(many, IsCard(card));
    AnswerForgetsOrder(OfCard(many, card), one);
    assert |multiset(OfCard(many, card))| == |OfCard(many, card)| && |multiset(one)| == |one|;
    if |one| != 0 {
      assert OfCard(many, card)[0] in OfCard(many, card);
    }
  }

  /** The shops with an effective buying price of the card. */
  function Shops(rows: seq<Price>, card: int): set<int> {
    set o | o in rows && o.card == card :: o.shop
  }

  lemma ShopsOf(s: seq<Price>, card: int)
    requires s != [] && s[0].card == card
    ensures Shops(s, card) == {s[0].shop} + Shops(s[1..], card)
  {
    assert s == [s[0]] + s[1..];
    forall shop
      ensures shop in Shops(s, card) <==> shop == s[0].shop || shop in Shops(s[1..], card)
    {
      assert s[0] in s;
    }
  }

  /** One row per shop: as many rows as shops. */
  lemma {:induction false} OnePerShop(s: seq<Price>, card: int)
    requires forall i :: 0 <= i < |s| ==> s[i].card == card
    requires forall i, j :: 0 <= i < j < |s| ==> s[i].shop != s[j].shop
    ensures |Shops(s, card)| == |s|
  {
    if s != [] {
      OnePerShop(s[1..], card);
      ShopsOf(s, card);
      NotAmong(s, card);
      hide Shops;
      assert {s[0].shop} !! Shops(s[1..], card);
    }
  }

  lemma NotAmong(s: seq<Price>, card: int)
    requires s != [] && forall j :: 0 < j < |s| ==> s[0].shop != s[j].shop
    ensures s[0].shop !in Shops(s[1..], card)
  {
  }

  /** Two of the newest rows are of different shops. */
  lemma LatestShopsDiffer(rows: seq<Price>, s: seq<Price>, card: int, byCard: bool)
    requires DistinctIds(rows) && forall i, j :: 0 <= i < j < |s| ==> s[i] != s[j]
    requires forall o :: o in s ==> IsLatest(rows, o, byCard) && o.card == card
    ensures forall i, j :: 0 <= i < j < |s| ==> s[i].shop != s[j].shop
  {
    forall i, j | 0 <= i < j < |s|
      ensures s[i].shop != s[j].shop
    {
      assert s[i] in s && s[j] in s;
      assert IsLatest(rows, s[i], byCard) && IsLatest(rows, s[j], byCard);
    }
  }

  /** The newest rows of a card number the shops that have one. */
  lemma CountsShops(rows: seq<Price>, s: seq<Price>, card: int, byCard: bool)
    requires DistinctIds(rows) && (byCard || forall o :: o in rows ==> o.card == card)
    requires forall o :: multiset(s)[o] == if IsLatest(rows, o, byCard) && o.card == card then 1 else 0
    ensures |s| == |Shops(rows, card)|
  {
    forall i, j | 0 <= i < j < |s|
      ensures s[i] != s[j]
    {
      assert s == s[..j] + s[j..] && s[i] in multiset(s[..j]) && s[j] in multiset(s[j..]);
      assert multiset(s) == multiset(s[..j]) + multiset(s[j..]);
    }
    assert forall o :: o in s <==> o in multiset(s);
    LatestShopsDiffer(rows, s, card, byCard);
    OnePerShop(s, card);
    forall shop
      ensures shop in Shops(s, card) <==> shop in Shops(rows, card)
    {
      if shop in Shops(rows, card) {
        var o :| o in rows && o.card == card && o.shop == shop;
        var z := NewestOf(rows, o, byCard);
        assert z in rows && z in s;
      }
    }
    assert Shops(s, card) == Shops(rows, card);
  }

  /** The shops QRY_02 counts for a card; a card it leaves out has none. */
  function ShopCount(lines: map<int, Answer>, card: int): nat {
    if card in lines then lines[card].shopCount else 0
  }

  lemma LineCounts(latest: seq<Price>, card: int)
    ensures ShopCount(Grouped(latest, PostgresAnswer), card) == |OfCard(latest, card)|
  {
    WhereMembers(latest, IsCard(card));
    if OfCard(latest, card) != [] {
      assert OfCard(latest, card)[0] in OfCard(latest, card);
    }
  }

  /**
   * A shop whose newest row of the card is in another currency is counted with that row by QRY_02
   * and without it by QRY_01. So QRY_02 never counts fewer shops, and it counts as many exactly when
   * every shop it counts has some price in yen.
   */
  lemma CurrencyMatters(rows: seq<Price>, log: set<Correction>, cards: set<int>, card: int)
    requires DistinctIds(rows) && card in cards
    ensures var many, one := Rows02(Postgres, rows, log, cards), Rows01(Postgres, rows, log, card);
            && (forall o :: IsLatest(many, o, true) && o.card == card && o.currency != "JPY" ==>
                  o in OfCard(PostgresLatest(many, true), card) && o !in PostgresLatest(one, false))
            && ShopCount(Postgres02(rows, log, cards), card) >= Postgres01(rows, log, card).shopCount
            && (ShopCount(Postgres02(rows, log, cards), card) == Postgres01(rows, log, card).shopCount <==>
                  Shops(many, card) == Shops(one, card))
  {
    hide PostgresLatest, Rows01, Rows02, IsLatest;
    var many, one := Rows02(Postgres, rows, log, cards), Rows01(Postgres, rows, log, card);
    var a, b := OfCard(PostgresLatest(many, true), card), PostgresLatest(one, false);
    OneOfMany(rows, log, cards, card);
    PostgresPicksLatest(many, true);
    PostgresPicksLatest(one, false);
    WhereMembers(PostgresLatest(many, true), IsCard(card));
    InTheTable(one, false);
    forall o
      ensures multiset(a)[o] == if IsLatest(many, o, true) && o.card == card then 1 else 0
    {
      WhereCounts(PostgresLatest(many, true), IsCard(card), o);
    }
    CountsShops(many, a, card, true);
    CountsShops(one, b, card, false);
    Subsets(Shops(one, card), Shops(many, card));
    LineCounts(PostgresLatest(many, true), card);
  }

  /**
   * MariaDB's QRY_01 counts a shop for a price that merely folds to the one asked for. So it never
   * counts fewer shops than PostgreSQL's, and as many exactly when each has an exact one too.
   */
  lemma FoldedPricesCount(engine: Engine, p: seq<Price>, m: seq<Price>, log: set<Correction>, card: int)
    requires DistinctIds(p) && DistinctIds(m) && multiset(p) == multiset(m)
    ensures var all, part := Rows01(engine, m, log, card), Rows01(Postgres, p, log, card);
            && Maria01(engine, m, log, card).shopCount >= Postgres01(p, log, card).shopCount
            && (Maria01(engine, m, log, card).shopCount == Postgres01(p, log, card).shopCount <==>
                  Shops(all, card) == Shops(part, card))
  {
    hide PostgresLatest, MariaLatest, Rows01, IsLatest;
    var all, part := Rows01(engine, m, log, card), Rows01(Postgres, p, log, card);
    Rows01Nested(engine, p, m, log, card);
    OfOneCard(engine, m, log, card);
    OfOneCard(Postgres, p, log, card);
    LatestAgree(all, all, false);
    PostgresPicksLatest(all, false);
    PostgresPicksLatest(part, false);
    InTheTable(all, false);
    InTheTable(part, false);
    CountsShops(all, MariaLatest(all, false), card, false);
    CountsShops(part, PostgresLatest(part, false), card, false);
    Subsets(Shops(part, card), Shops(all, card));
  }

  lemma OfOneCard(engine: Engine, rows: seq<Price>, log: set<Correction>, card: int)
    ensures forall o :: o in Rows01(engine, rows, log, card) ==> o.card == card
  {
    WhereMembers(rows, Keep01(engine, card, log));
  }

  lemma Subsets(a: set<int>, b: set<int>)
    requires a <= b
    ensures |a| <= |b| && (|a| == |b| <==> a == b)
  {
    assert b == a + (b - a) && |b| == |a| + |b - a|;
  }

  // ------------------------------------------------------- corrections

  /** Corrections of one observation say nothing about any other. */
  lemma OthersUnaffected(log: set<Correction>, later: set<Correction>, observation: int, other: int)
    requires log <= later && other != observation
    requires forall c: Correction :: c in later - log ==> c.observation == observation
    ensures Effective(later, other) == Effective(log, other)
  {
    assert CorrectionsOf(later, other) == CorrectionsOf(log, other);
  }

  /** The newest correction of all decides about its observation. */
  lemma AddedDecides(log: set<Correction>, c: Correction)
    requires forall d :: d in log ==> d.id < c.id
    ensures Effective(log + {c}, c.observation) <==> c.action == Restore
  {
    var corrections := CorrectionsOf(log + {c}, c.observation);
    assert IsNewest(corrections, c);
    assert forall d :: IsNewest(corrections, d) ==> d == c;
  }

  /** `rows` without the observation `o`. */
  ghost predicate DropsOne(before: seq<Price>, after: seq<Price>, o: Price) {
    forall x :: x in after <==> x in before && x != o
  }

  lemma WithdrawnDrops(rows: seq<Price>, log: set<Correction>, card: int, o: Price, c: Correction)
    requires DistinctIds(rows) && o in rows && c.observation == o.id && c.action != Restore
    requires forall d :: d in log ==> d.id < c.id
    ensures DropsOne(Rows01(Postgres, rows, log, card), Rows01(Postgres, rows, log + {c}, card), o)
  {
    var after := log + {c};
    WhereMembers(rows, Keep01(Postgres, card, log));
    WhereMembers(rows, Keep01(Postgres, card, after));
    AddedDecides(log, c);
    forall x | x in rows && x != o
      ensures Effective(after, x.id) == Effective(log, x.id)
    {
      assert x.id != o.id;
      OthersUnaffected(log, after, o.id, x.id);
    }
    hide Effective;
  }

  /**
   * An observation that is invalidated or superseded drops out: its shop falls back to the newest
   * of its other effective observations, and no other shop's row changes.
   */
  lemma WithdrawalFallsBack(rows: seq<Price>, log: set<Correction>, card: int, o: Price, c: Correction, x: Price)
    requires DistinctIds(rows) && o in rows && c.observation == o.id && c.action != Restore
    requires forall d :: d in log ==> d.id < c.id
    ensures var before, after := Rows01(Postgres, rows, log, card), Rows01(Postgres, rows, log + {c}, card);
            x in PostgresLatest(after, false) <==>
              if x.shop != o.shop then x in PostgresLatest(before, false)
              else x in before && x != o
                   && forall y :: y in before && y != o && y.shop == o.shop ==>
                        y.observedAt < x.observedAt || (y.observedAt == x.observedAt && y.id <= x.id)
  {
    WithdrawnDrops(rows, log, card, o, c);
    WhereDistinct(rows, Keep01(Postgres, card, log));
    WhereDistinct(rows, Keep01(Postgres, card, log + {c}));
    hide PostgresLatest, Rows01;
    PostgresPicksLatest(Rows01(Postgres, rows, log, card), false);
    PostgresPicksLatest(Rows01(Postgres, rows, log + {c}, card), false);
  }

  /** Withdrawing an observation that was not its shop's latest changes no answer. */
  lemma OldWithdrawalIsUnseen(rows: seq<Price>, log: set<Correction>, card: int, o: Price, c: Correction)
    requires DistinctIds(rows) && o in rows && c.observation == o.id && c.action != Restore
    requires forall d :: d in log ==> d.id < c.id
    requires o !in PostgresLatest(Rows01(Postgres, rows, log, card), false)
    ensures Postgres01(rows, log + {c}, card) == Postgres01(rows, log, card)
  {
    hide PostgresLatest, Rows01, PostgresAnswer, Newer;
    var before, after := Rows01(Postgres, rows, log, card), Rows01(Postgres, rows, log + {c}, card);
    WithdrawnDrops(rows, log, card, o, c);
    DistinctRows(rows, log, card);
    DistinctRows(rows, log + {c}, card);
    PostgresPicksLatest(before, false);
    PostgresPicksLatest(after, false);
    forall x
      ensures IsLatest(after, x, false) <==> IsLatest(before, x, false)
    {
      StillLatest(before, after, o, x);
    }
    AnswerForgetsOrder(PostgresLatest(after, false), PostgresLatest(before, false));
  }

  lemma DistinctRows(rows: seq<Price>, log: set<Correction>, card: int)
    requires DistinctIds(rows)
    ensures DistinctIds(Rows01(Postgres, rows, log, card))
  {
    WhereDistinct(rows, Keep01(Postgres, card, log));
  }

  lemma StillLatest(before: seq<Price>, after: seq<Price>, o: Price, x: Price)
    requires DropsOne(before, after, o) && DistinctIds(before) && !IsLatest(before, o, false)
    ensures IsLatest(after, x, false) <==> IsLatest(before, x, false)
  {
    if o in before {
      var y :| y in before && y.shop == o.shop && Newer(y, o);
      assert y in after;
      assert forall x: Price :: Newer(o, x) ==> Newer(y, x);
    }
  }

  /**
   * However often one effective observation is then withdrawn and restored, as long as the last
   * word is a restore both dialects give back the answer they gave before the log grew.
   */
  lemma RestoreGivesBack(engine: Engine, rows: seq<Price>, log: set<Correction>, later: set<Correction>,
                         r: Correction, card: int)
    requires DistinctIds(rows) && log <= later && Effective(log, r.observation)
    requires forall c: Correction :: c in later - log ==> c.observation == r.observation
    requires forall d :: d in later ==> d.id < r.id
    requires r.action == Restore
    ensures Postgres01(rows, later + {r}, card) == Postgres01(rows, log, card)
    ensures Maria01(engine, rows, later + {r}, card) == Maria01(engine, rows, log, card)
  {
    AddedDecides(later, r);
    forall x | x in rows
      ensures Effective(later + {r}, x.id) == Effective(log, x.id)
    {
      if x.id != r.observation {
        OthersUnaffected(log, later + {r}, r.observation, x.id);
      }
    }
    hide Effective;
    SameWhere(rows, Keep01(Postgres, card, later + {r}), Keep01(Postgres, card, log));
    SameWhere(rows, Keep01(engine, card, later + {r}), Keep01(engine, card, log));
  }

  lemma {:induction false} SameWhere(rows: seq<Price>, a: Price -> bool, b: Price -> bool)
    requires forall o :: o in rows ==> a(o) == b(o)
    ensures Where(rows, a) == Where(rows, b)
  {
    if rows != [] {
      SameWhere(rows[1..], a, b);
    }
  }
}

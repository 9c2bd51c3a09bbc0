/**
 * What the shop comparison queries answer (queries.py, QRY_01 and QRY_02), said of the stored prices
 * themselves: which observations count, which one speaks for a shop, and what is reported of them.
 */
module Answers {
  import opened Text
  import opened Schema
  import opened Queries
  import P = Percentile

  /** Corrections are stored under primary keys too. */
  ghost predicate DistinctCorrections(log: set<Correction>) {
    forall c, d :: c in log && d in log && c.id == d.id ==> c == d
  }

  /** Nothing was ever said against the observation, or its last correction restored it. */
  ghost predicate Stands(log: set<Correction>, observation: int) {
    forall c :: c in log && c.observation == observation
                && (forall d :: d in log && d.observation == observation ==> d.id <= c.id) ==>
      c.action == Restore
  }

  /** The buying prices in yen of a card that still stand. */
  ghost function Asked01(engine: Engine, rows: seq<Price>, log: set<Correction>, card: int): set<Price> {
    set o | o in rows && o.card == card && Same(engine, o.priceType, "buy") && Same(engine, o.currency, "JPY")
            && Stands(log, o.id)
  }

  /** The same whatever their currency. */
  ghost function Asked02(engine: Engine, rows: seq<Price>, log: set<Correction>, card: int): set<Price> {
    set o | o in rows && o.card == card && Same(engine, o.priceType, "buy") && Stands(log, o.id)
  }

  /** The price observed last in its shop, and of those observed together the one stored last. */
  ghost predicate SpeaksForItsShop(asked: set<Price>, o: Price) {
    o in asked &&
    forall x :: x in asked && x.shop == o.shop ==>
      x.observedAt < o.observedAt || (x.observedAt == o.observedAt && x.id <= o.id)
  }

  ghost function ShopsAsked(asked: set<Price>): set<int> {
    set o | o in asked :: o.shop
  }

  /**
   * The answer about the prices asked for: how many shops have one, the extremes of the prices that
   * speak for them, and when any was last observed; nothing but a count of zero where there is none.
   */
  ghost predicate Summarises(a: Answer, asked: set<Price>) {
    && a.shopCount == |ShopsAsked(asked)|
    && (asked == {} ==> a == Answer(0, None, None, None, None))
    && (asked != {} ==>
          && a.maxAmount.Some? && a.minAmount.Some? && a.median.Some? && a.freshest.Some?
          && (exists o :: SpeaksForItsShop(asked, o) && o.amount == a.maxAmount.value)
          && (exists o :: SpeaksForItsShop(asked, o) && o.amount == a.minAmount.value)
          && (forall o :: SpeaksForItsShop(asked, o) ==> a.minAmount.value <= o.amount <= a.maxAmount.value)
          && (exists o :: o in asked && o.observedAt == a.freshest.value)
          && forall o :: o in asked ==> o.observedAt <= a.freshest.value)
  }

  /** Every shop's speaking price, once each. */
  ghost predicate Speakers(latest: seq<Price>, asked: set<Price>) {
    forall o :: multiset(latest)[o] == if SpeaksForItsShop(asked, o) then 1 else 0
  }

  /** The median reported is that of the speaking prices, in whatever order they are listed. */
  ghost predicate ReportsMedian(a: Answer, asked: set<Price>) {
    forall latest, ordered :: ReportsFor(a, asked, latest, ordered)
  }

  ghost predicate ReportsFor(a: Answer, asked: set<Price>, latest: seq<Price>, ordered: seq<real>) {
    Speakers(latest, asked) && latest != [] && P.Arranges(ordered, Column(latest, RealAmountOf)) && ordered != [] ==>
      a.median.Some? && P.LiesAt(ordered, 0.5, a.median.value)
  }

  // ------------------------------------------------------- effectiveness

  lemma EffectiveStands(log: set<Correction>, observation: int)
    requires DistinctCorrections(log)
    ensures Effective(log, observation) <==> Stands(log, observation)
  {
    var corrections := CorrectionsOf(log, observation);
    assert forall c :: IsNewest(corrections, c) <==>
             c in log && c.observation == observation
             && forall d :: d in log && d.observation == observation ==> d.id <= c.id;
    if corrections != {} {
      var c := NewestCorrection(corrections);
      assert forall d :: IsNewest(corrections, d) ==> d == c;
    }
  }

  lemma NewestCorrection(corrections: set<Correction>) returns (c: Correction)
    requires corrections != {}
    ensures IsNewest(corrections, c)
    decreases |corrections|
  {
    c :| c in corrections;
    var first, rest := c, corrections - {c};
    if rest != {} {
      var d := NewestCorrection(rest);
      if d.id > c.id {
        c := d;
      }
    }
    assert forall x :: x in corrections ==> x == first || x in rest;
  }

  // --------------------------------------------------------- the answer

  lemma SpeakersAre(latest: seq<Price>, asked: set<Price>)
    requires Speakers(latest, asked)
    ensures forall o :: o in latest <==> SpeaksForItsShop(asked, o)
    ensures forall i, j :: 0 <= i < j < |latest| ==> latest[i] != latest[j]
  {
    assert forall o :: o in latest <==> o in multiset(latest);
    forall i, j | 0 <= i < j < |latest|
      ensures latest[i] != latest[j]
    {
      assert latest == latest[..j] + latest[j..];
      var o := latest[i];
      assert o in latest[..j] && latest[j] in latest[j..];
      assert multiset(latest)[o] == multiset(latest[..j])[o] + multiset(latest[j..])[o];
      assert multiset(latest)[o] <= 1;
    }
  }

  /** Every price asked for is in a shop some price speaks for. */
  lemma {:induction false} SomeoneSpeaks(asked: set<Price>, o: Price) returns (z: Price)
    requires o in asked
    requires forall x, y :: x in asked && y in asked && x.id == y.id ==> x == y
    ensures SpeaksForItsShop(asked, z) && z.shop == o.shop
    ensures o.observedAt <= z.observedAt
    decreases |asked|
  {
    var rest := set x | x in asked && x.shop == o.shop
                        && (x.observedAt > o.observedAt || (x.observedAt == o.observedAt && x.id > o.id));
    if x :| x in rest {
      assert o !in rest && rest < asked;
      Fewer(rest, asked);
      z := SomeoneSpeaks(rest, x);
      SpeaksAmongAll(asked, rest, o, z);
    } else {
      z := o;
      forall x | x in asked && x.shop == o.shop
        ensures x.observedAt < o.observedAt || (x.observedAt == o.observedAt && x.id <= o.id)
      {
        assert x !in rest;
      }
    }
  }

  lemma Fewer(a: set<Price>, b: set<Price>)
    requires a < b
    ensures |a| < |b|
  {
    assert b == a + (b - a) && b - a != {};
  }

  lemma SpeaksAmongAll(asked: set<Price>, rest: set<Price>, o: Price, z: Price)
    requires o in asked && SpeaksForItsShop(rest, z)
    requires forall x :: x in rest <==>
               x in asked && x.shop == o.shop
               && (x.observedAt > o.observedAt || (x.observedAt == o.observedAt && x.id > o.id))
    ensures SpeaksForItsShop(asked, z)
  {
    forall x | x in asked && x.shop == z.shop
      ensures x.observedAt < z.observedAt || (x.observedAt == z.observedAt && x.id <= z.id)
    {
      assert z in rest;
    }
  }

  /** As many prices speak as there are shops. */
  lemma SpeakersCount(latest: seq<Price>, asked: set<Price>)
    requires Speakers(latest, asked)
    requires forall x, y :: x in asked && y in asked && x.id == y.id ==> x == y
    ensures |latest| == |ShopsAsked(asked)|
  {
    SpeakersAre(latest, asked);
    forall i, j | 0 <= i < j < |latest|
      ensures latest[i].shop != latest[j].shop
    {
      assert latest[i] in latest && latest[j] in latest;
    }
    OnePerShop(latest);
    forall shop | shop in ShopsAsked(asked)
      ensures shop in ShopsOf(latest)
    {
      var o :| o in asked && o.shop == shop;
      var z := SomeoneSpeaks(asked, o);
      assert z in latest;
    }
    assert ShopsOf(latest) == ShopsAsked(asked);
  }

  ghost function ShopsOf(latest: seq<Price>): set<int> {
    set o | o in latest :: o.shop
  }

  lemma {:induction false} OnePerShop(latest: seq<Price>)
    requires forall i, j :: 0 <= i < j < |latest| ==> latest[i].shop != latest[j].shop
    ensures |ShopsOf(latest)| == |latest|
  {
    if latest != [] {
      var o, rest := latest[0], latest[1..];
      OnePerShop(rest);
      assert latest == [o] + rest;
      assert ShopsOf(latest) == {o.shop} + ShopsOf(rest);
      assert forall x :: x in rest ==> x.shop != o.shop;
    }
  }

  lemma ColumnHas<T>(rows: seq<Price>, of: Price -> T)
    ensures |Column(rows, of)| == |rows|
    ensures forall x :: x in Column(rows, of) <==> exists o :: o in rows && of(o) == x
  {
    forall x | exists o :: o in rows && of(o) == x
      ensures x in Column(rows, of)
    {
      var o :| o in rows && of(o) == x;
      var i :| 0 <= i < |rows| && rows[i] == o;
      assert Column(rows, of)[i] == x;
    }
  }

  lemma PostgresSummarises(latest: seq<Price>, asked: set<Price>)
    requires Speakers(latest, asked)
    requires forall x, y :: x in asked && y in asked && x.id == y.id ==> x == y
    ensures Summarises(PostgresAnswer(latest), asked)
  {
    SpeakersAre(latest, asked);
    SpeakersCount(latest, asked);
    SpeakersEmpty(latest, asked);
    if latest == [] {
      assert ShopsAsked(asked) == {};
      NoMedian(latest);
    } else {
      SomeMedian(latest);
      ExtremesSpeak(latest, asked);
      FreshestOfAll(latest, asked);
      hide MaxOf, MinOf, Column, Speakers, SpeaksForItsShop;
    }
  }

  lemma ExtremesSpeak(latest: seq<Price>, asked: set<Price>)
    requires latest != [] && forall o :: o in latest <==> SpeaksForItsShop(asked, o)
    ensures var a := PostgresAnswer(latest);
            && a.maxAmount.Some? && a.minAmount.Some?
            && (exists o :: SpeaksForItsShop(asked, o) && o.amount == a.maxAmount.value)
            && (exists o :: SpeaksForItsShop(asked, o) && o.amount == a.minAmount.value)
            && forall o :: SpeaksForItsShop(asked, o) ==> a.minAmount.value <= o.amount <= a.maxAmount.value
  {
    hide SpeaksForItsShop, MaxOf, MinOf, Column;
    ColumnHas(latest, AmountOf);
    MaxBounds(Column(latest, AmountOf));
    forall o | SpeaksForItsShop(asked, o)
      ensures AmountOf(o) in Column(latest, AmountOf)
    {
      assert o in latest;
    }
    var high, low := MaxOf(Column(latest, AmountOf)).value, MinOf(Column(latest, AmountOf)).value;
    var h :| h in latest && AmountOf(h) == high;
    var l :| l in latest && AmountOf(l) == low;
    assert SpeaksForItsShop(asked, h) && SpeaksForItsShop(asked, l);
  }

  lemma FreshestOfAll(latest: seq<Price>, asked: set<Price>)
    requires latest != [] && forall o :: o in latest <==> SpeaksForItsShop(asked, o)
    requires forall x, y :: x in asked && y in asked && x.id == y.id ==> x == y
    ensures var a := PostgresAnswer(latest);
            && a.freshest.Some?
            && (exists o :: o in asked && o.observedAt == a.freshest.value)
            && forall o :: o in asked ==> o.observedAt <= a.freshest.value
  {
    hide MaxOf, Column;
    ColumnHas(latest, TimeOf);
    MaxBounds(Column(latest, TimeOf));
    var t := MaxOf(Column(latest, TimeOf)).value;
    var f :| f in latest && TimeOf(f) == t;
    assert SpeaksForItsShop(asked, f);
    forall o | o in asked
      ensures o.observedAt <= t
    {
      var z := SomeoneSpeaks(asked, o);
      assert z in latest && TimeOf(z) in Column(latest, TimeOf);
    }
  }

  lemma NoMedian(latest: seq<Price>)
    requires latest == []
    ensures P.Percentile(Column(latest, RealAmountOf), 0.5) == None
  {
  }

  lemma SomeMedian(latest: seq<Price>)
    requires latest != []
    ensures P.Percentile(Column(latest, RealAmountOf), 0.5).Some?
  {
  }

  lemma NotEmpty(latest: seq<Price>, asked: set<Price>)
    requires asked != {} && forall o :: o in latest <==> SpeaksForItsShop(asked, o)
    requires forall x, y :: x in asked && y in asked && x.id == y.id ==> x == y
    ensures latest != []
  {
    var o :| o in asked;
    var z := SomeoneSpeaks(asked, o);
    assert z in latest;
  }

  lemma PostgresMedian(latest: seq<Price>, asked: set<Price>)
    requires Speakers(latest, asked)
    ensures ReportsMedian(PostgresAnswer(latest), asked)
  {
    forall other, ordered
      ensures ReportsFor(PostgresAnswer(latest), asked, other, ordered)
    {
      if Speakers(other, asked) && other != [] && P.Arranges(ordered, Column(other, RealAmountOf)) && ordered != [] {
        MedianLies(latest, asked, other, ordered);
      }
    }
  }

  lemma MedianLies(latest: seq<Price>, asked: set<Price>, other: seq<Price>, ordered: seq<real>)
    requires Speakers(latest, asked) && Speakers(other, asked) && other != []
    requires P.Arranges(ordered, Column(other, RealAmountOf)) && ordered != []
    ensures PostgresAnswer(latest).median.Some? && P.LiesAt(ordered, 0.5, PostgresAnswer(latest).median.value)
  {
    forall o
      ensures multiset(other)[o] == multiset(latest)[o]
    {
    }
    assert multiset(other) == multiset(latest);
    AnswerForgetsOrder(other, latest);
    P.PercentileLies(Column(other, RealAmountOf), ordered, 0.5);
  }

  /** Either dialect of the answer over the rows that speak. */
  lemma BothSay(p: seq<Price>, m: seq<Price>, asked: set<Price>, wide: set<Price>)
    requires Speakers(p, asked) && Speakers(m, wide)
    requires forall x, y :: x in asked && y in asked && x.id == y.id ==> x == y
    requires forall x, y :: x in wide && y in wide && x.id == y.id ==> x == y
    ensures Summarises(PostgresAnswer(p), asked) && ReportsMedian(PostgresAnswer(p), asked)
    ensures Summarises(MariaAnswer(m), wide) && ReportsMedian(MariaAnswer(m), wide)
  {
    PostgresSummarises(p, asked);
    PostgresMedian(p, asked);
    PostgresSummarises(m, wide);
    PostgresMedian(m, wide);
    hide Summarises, ReportsMedian, PostgresAnswer, MariaAnswer;
    AnswersAgree(m, m);
  }

  // ------------------------------------------------------------- QRY_01

  lemma Rows01Are(engine: Engine, rows: seq<Price>, log: set<Correction>, card: int)
    requires DistinctIds(rows) && DistinctCorrections(log)
    ensures DistinctIds(Rows01(engine, rows, log, card))
    ensures forall o :: o in Rows01(engine, rows, log, card) <==> o in Asked01(engine, rows, log, card)
  {
    WhereDistinct(rows, Keep01(engine, card, log));
    WhereMembers(rows, Keep01(engine, card, log));
    forall o: Price
      ensures Effective(log, o.id) <==> Stands(log, o.id)
    {
      EffectiveStands(log, o.id);
    }
    hide Effective, Stands;
  }

  lemma IdsDiffer(rows: seq<Price>, asked: set<Price>)
    requires DistinctIds(rows) && forall o :: o in asked ==> o in rows
    ensures forall x, y :: x in asked && y in asked && x.id == y.id ==> x == y
  {
    forall x, y | x in asked && y in asked && x.id == y.id
      ensures x == y
    {
      var i :| 0 <= i < |rows| && rows[i] == x;
      var j :| 0 <= j < |rows| && rows[j] == y;
    }
  }

  lemma LatestSpeaks(rows: seq<Price>, asked: set<Price>, card: int, o: Price, byCard: bool)
    requires forall x :: x in asked <==> x in rows && (byCard ==> x.card == card)
    requires !byCard || o.card == card
    ensures IsLatest(rows, o, byCard) <==> SpeaksForItsShop(asked, o)
  {
  }

  lemma PostgresSpeakers01(engine: Engine, rows: seq<Price>, log: set<Correction>, card: int)
    requires DistinctIds(rows) && DistinctCorrections(log)
    ensures Speakers(PostgresLatest(Rows01(engine, rows, log, card), false), Asked01(engine, rows, log, card))
  {
    var some, asked := Rows01(engine, rows, log, card), Asked01(engine, rows, log, card);
    Rows01Are(engine, rows, log, card);
    PostgresPicksLatest(some, false);
    hide PostgresLatest, Rows01, Asked01, IsLatest, SpeaksForItsShop;
    forall o
      ensures multiset(PostgresLatest(some, false))[o] == if SpeaksForItsShop(asked, o) then 1 else 0
    {
      LatestSpeaks(some, asked, o.card, o, false);
    }
  }

  lemma SameSpeakers(p: seq<Price>, m: seq<Price>, asked: set<Price>)
    requires Speakers(p, asked) && multiset(p) == multiset(m)
    ensures Speakers(m, asked)
  {
  }

  /** What QRY_01 answers on either server, about the prices its own comparison of text asks for. */
  lemma Query01Answers(engine: Engine, rows: seq<Price>, log: set<Correction>, card: int)
    requires DistinctIds(rows) && DistinctCorrections(log)
    ensures Summarises(Postgres01(rows, log, card), Asked01(Postgres, rows, log, card))
    ensures ReportsMedian(Postgres01(rows, log, card), Asked01(Postgres, rows, log, card))
    ensures Summarises(Maria01(engine, rows, log, card), Asked01(engine, rows, log, card))
    ensures ReportsMedian(Maria01(engine, rows, log, card), Asked01(engine, rows, log, card))
  {
    var p, m := PostgresLatest(Rows01(Postgres, rows, log, card), false), Rows01(engine, rows, log, card);
    PostgresSpeakers01(Postgres, rows, log, card);
    PostgresSpeakers01(engine, rows, log, card);
    Rows01Are(engine, rows, log, card);
    IdsDiffer(rows, Asked01(Postgres, rows, log, card));
    IdsDiffer(rows, Asked01(engine, rows, log, card));
    hide Speakers, PostgresLatest, MariaLatest, PostgresAnswer, MariaAnswer, Summarises, ReportsMedian, Rows01, Asked01;
    LatestAgree(m, m, false);
    SameSpeakers(PostgresLatest(m, false), MariaLatest(m, false), Asked01(engine, rows, log, card));
    BothSay(p, MariaLatest(m, false), Asked01(Postgres, rows, log, card), Asked01(engine, rows, log, card));
  }

  // ------------------------------------------------------------- QRY_02

  lemma Rows02Are(engine: Engine, rows: seq<Price>, log: set<Correction>, cards: set<int>, card: int)
    requires DistinctIds(rows) && DistinctCorrections(log) && card in cards
    ensures DistinctIds(Rows02(engine, rows, log, cards))
    ensures forall o ::
              o in Asked02(engine, rows, log, card) <==> o in Rows02(engine, rows, log, cards) && o.card == card
  {
    WhereDistinct(rows, Keep02(engine, cards, log));
    WhereMembers(rows, Keep02(engine, cards, log));
    forall o: Price
      ensures Effective(log, o.id) <==> Stands(log, o.id)
    {
      EffectiveStands(log, o.id);
    }
    hide Effective, Stands;
  }

  lemma PostgresSpeakers02(engine: Engine, rows: seq<Price>, log: set<Correction>, cards: set<int>, card: int)
    requires DistinctIds(rows) && DistinctCorrections(log) && card in cards
    ensures Speakers(OfCard(PostgresLatest(Rows02(engine, rows, log, cards), true), card),
                     Asked02(engine, rows, log, card))
  {
    var some, asked := Rows02(engine, rows, log, cards), Asked02(engine, rows, log, card);
    Rows02Are(engine, rows, log, cards, card);
    PostgresPicksLatest(some, true);
    hide PostgresLatest, Rows02, Asked02, IsLatest;
    forall o
      ensures multiset(OfCard(PostgresLatest(some, true), card))[o] == if SpeaksForItsShop(asked, o) then 1 else 0
    {
      WhereCounts(PostgresLatest(some, true), IsCard(card), o);
      if o.card == card {
        LatestSpeaks(some, asked, card, o, true);
      }
    }
  }

  /** A card has a line exactly when some row of it is picked. */
  lemma LineOf(latest: seq<Price>, card: int, answer: seq<Price> -> Answer)
    ensures card in Grouped(latest, answer) <==> OfCard(latest, card) != []
    ensures card in Grouped(latest, answer) ==> Grouped(latest, answer)[card] == answer(OfCard(latest, card))
  {
    WhereMembers(latest, IsCard(card));
    if OfCard(latest, card) != [] {
      assert OfCard(latest, card)[0] in OfCard(latest, card);
    }
  }

  lemma SpeakersEmpty(latest: seq<Price>, asked: set<Price>)
    requires Speakers(latest, asked)
    requires forall x, y :: x in asked && y in asked && x.id == y.id ==> x == y
    ensures latest == [] <==> asked == {}
  {
    SpeakersAre(latest, asked);
    assert latest != [] ==> latest[0] in latest;
    if asked != {} {
      NotEmpty(latest, asked);
    }
  }

  /** What QRY_02 answers: a line for each card asked about that has a price, and what it says. */
  lemma Query02Answers(engine: Engine, rows: seq<Price>, log: set<Correction>, cards: set<int>, card: int)
    requires DistinctIds(rows) && DistinctCorrections(log) && card in cards
    ensures var lines, asked := Postgres02(rows, log, cards), Asked02(Postgres, rows, log, card);
            && (card in lines <==> asked != {})
            && (card in lines ==> Summarises(lines[card], asked) && ReportsMedian(lines[card], asked))
    ensures var lines, asked := Maria02(engine, rows, log, cards), Asked02(engine, rows, log, card);
            && (card in lines <==> asked != {})
            && (card in lines ==> Summarises(lines[card], asked) && ReportsMedian(lines[card], asked))
  {
    var narrow, wide := Asked02(Postgres, rows, log, card), Asked02(engine, rows, log, card);
    var some := Rows02(engine, rows, log, cards);
    var p, q, m := PostgresLatest(Rows02(Postgres, rows, log, cards), true), PostgresLatest(some, true),
      MariaLatest(some, true);
    PostgresSpeakers02(Postgres, rows, log, cards, card);
    PostgresSpeakers02(engine, rows, log, cards, card);
    Rows02Are(engine, rows, log, cards, card);
    IdsDiffer(rows, narrow);
    IdsDiffer(rows, wide);
    hide Speakers, PostgresLatest, MariaLatest, PostgresAnswer, MariaAnswer, Summarises, ReportsMedian, Rows02, Asked02,
      Grouped, OfCard;
    LatestAgree(some, some, true);
    WherePermuted(q, m, card);
    SameSpeakers(OfCard(q, card), OfCard(m, card), wide);
    LineOf(p, card, PostgresAnswer);
    LineOf(m, card, MariaAnswer);
    SpeakersEmpty(OfCard(p, card), narrow);
    SpeakersEmpty(OfCard(m, card), wide);
    BothSay(OfCard(p, card), OfCard(m, card), narrow, wide);
  }

  lemma WherePermuted(q: seq<Price>, m: seq<Price>, card: int)
    requires multiset(q) == multiset(m)
    ensures multiset(OfCard(q, card)) == multiset(OfCard(m, card))
  {
    WherePermutes(q, m, IsCard(card));
  }

  /** A card that was not asked about has no line. */
  lemma OnlyCardsAsked(engine: Engine, rows: seq<Price>, log: set<Correction>, cards: set<int>, card: int)
    requires DistinctIds(rows) && card !in cards
    ensures card !in Postgres02(rows, log, cards) && card !in Maria02(engine, rows, log, cards)
  {
    WhereMembers(rows, Keep02(Postgres, cards, log));
    WhereMembers(rows, Keep02(engine, cards, log));
    WhereDistinct(rows, Keep02(Postgres, cards, log));
    WhereDistinct(rows, Keep02(engine, cards, log));
    hide PostgresLatest, MariaLatest, Effective;
    PostgresPicksLatest(Rows02(Postgres, rows, log, cards), true);
    PostgresPicksLatest(Rows02(engine, rows, log, cards), true);
    var some := Rows02(engine, rows, log, cards);
    LatestAgree(some, some, true);
    Members(PostgresLatest(some, true), MariaLatest(some, true));
  }
}

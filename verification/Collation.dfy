/**
 * What MariaDB's collation may do to the ledger's text. The server compares with utf8mb4_unicode_ci
 * (bootstrap.py, instances.sh), which folds case; the one thing relied on is that it folds no more
 * than that on visible ASCII text. Everything the ledger writes under a unique key then stays apart.
 */
module Collation {
  import opened Text
  import opened Schema

  function LowerCase(c: char): char {
    if 'A' <= c <= 'Z' then (c as int + 32) as char else c
  }

  function Lowered(s: string): (t: string)
    ensures |t| == |s|
  {
    seq(|s|, i requires 0 <= i < |s| => LowerCase(s[i]))
  }

  predicate Visible(s: string) {
    forall c :: c in s ==> '!' <= c <= '~'
  }

  /** Visible ASCII texts the server takes for the same are the same but for case. */
  ghost predicate Discerning(engine: Engine) {
    forall a, b :: Same(engine, a, b) && Visible(a) && Visible(b) ==> Lowered(a) == Lowered(b)
  }

  lemma PostgresDiscerns()
    ensures Discerning(Postgres)
  {
  }

  function Trimmed(s: string): string {
    if s != "" && s[|s| - 1] == ' ' then Trimmed(s[..|s| - 1]) else s
  }

  /** A collation that folds case and ignores trailing blanks. */
  function CaseBlind(s: string): string {
    Lowered(Trimmed(s))
  }

  /** It is such a collation, and it does take different texts for the same. */
  lemma CaseBlindDiscerns()
    ensures Discerning(MariaDb(CaseBlind))
    ensures Same(MariaDb(CaseBlind), "jpy ", "JPY")
  {
    var engine := MariaDb(CaseBlind);
    forall a, b | Same(engine, a, b) && Visible(a) && Visible(b)
      ensures Lowered(a) == Lowered(b)
    {
      VisibleIsTrimmed(a);
      VisibleIsTrimmed(b);
    }
    assert "jpy "[..3] == "jpy" && Trimmed("jpy ") == Trimmed("jpy") == "jpy";
    assert Trimmed("JPY") == "JPY" && Lowered("JPY") == "jpy" == Lowered("jpy");
  }

  lemma VisibleIsTrimmed(s: string)
    requires Visible(s)
    ensures Trimmed(s) == s
  {
    assert s != "" ==> s[|s| - 1] in s;
  }

  // -------------------------------------------------- one case per text

  predicate NoCapitals(s: string) {
    Visible(s) && forall c :: c in s ==> !('A' <= c <= 'Z')
  }

  predicate NoSmall(s: string) {
    Visible(s) && forall c :: c in s ==> !('a' <= c <= 'z')
  }

  lemma SmallStaysApart(a: string, b: string)
    requires NoCapitals(a) && NoCapitals(b) && Lowered(a) == Lowered(b)
    ensures a == b
  {
    forall i | 0 <= i < |a|
      ensures a[i] == b[i]
    {
      assert a[i] in a && b[i] in b;
      assert Lowered(a)[i] == Lowered(b)[i];
    }
  }

  lemma CapitalsStayApart(a: string, b: string)
    requires NoSmall(a) && NoSmall(b) && Lowered(a) == Lowered(b)
    ensures a == b
  {
    forall i | 0 <= i < |a|
      ensures a[i] == b[i]
    {
      assert a[i] in a && b[i] in b;
      assert Lowered(a)[i] == Lowered(b)[i];
    }
  }

  /** A text without capitals, a bar, and a text without small letters and bars. */
  ghost predicate IsCasedKey(s: string, small: string, capital: string) {
    s == small + "|" + capital && NoCapitals(small) && NoSmall(capital) && NoBar(capital)
  }

  ghost predicate CasedKey(s: string) {
    exists small, capital :: IsCasedKey(s, small, capital)
  }

  lemma LoweredSplits(a: string, b: string)
    ensures Lowered(a + "|" + b) == Lowered(a) + "|" + Lowered(b)
  {
  }

  lemma NoBarLowered(s: string)
    requires NoBar(s)
    ensures NoBar(Lowered(s))
  {
    forall c | c in Lowered(s)
      ensures c != '|'
    {
      var i :| 0 <= i < |s| && Lowered(s)[i] == c;
      assert s[i] in s;
    }
  }

  /** The last bar is where it is. */
  lemma LastBar(a: string, b: string, c: string, d: string)
    requires a + "|" + b == c + "|" + d && NoBar(b) && NoBar(d)
    ensures a == c && b == d
  {
    var s := a + "|" + b;
    assert s[|a|] == '|' && s[|c|] == '|';
    assert forall i :: |a| < i < |s| ==> s[i] == b[i - |a| - 1];
    assert forall i :: |c| < i < |s| ==> s[i] == d[i - |c| - 1];
    assert |a| == |c|;
    assert s[..|a|] == a && s[..|c|] == c && s[|a| + 1..] == b && s[|c| + 1..] == d;
  }

  lemma CasedKeysStayApart(s: string, t: string)
    requires CasedKey(s) && CasedKey(t) && Lowered(s) == Lowered(t)
    ensures s == t
  {
    var a, b :| IsCasedKey(s, a, b);
    var c, d :| IsCasedKey(t, c, d);
    LoweredSplits(a, b);
    LoweredSplits(c, d);
    NoBarLowered(b);
    NoBarLowered(d);
    hide Lowered;
    LastBar(Lowered(a), Lowered(b), Lowered(c), Lowered(d));
    SmallStaysApart(a, c);
    CapitalsStayApart(b, d);
  }

  lemma CasedKeyIsVisible(s: string)
    requires CasedKey(s)
    ensures Visible(s)
  {
    var a, b :| IsCasedKey(s, a, b);
    assert forall c :: c in s ==> c in a || c == '|' || c in b;
  }

  // ------------------------------------------------------ ledger texts

  /** The texts of the row's unique key keep to one case each. */
  ghost predicate Cased(r: Row) {
    match r
    case Source(_, slug, _) => NoCapitals(slug)
    case Shop(_, slug) => NoCapitals(slug)
    case Card(_, tcg, setCode, number, rarity, edition, language) =>
      NoCapitals(tcg) && NoSmall(setCode) && NoSmall(number) && NoSmall(rarity)
      && NoCapitals(edition) && NoCapitals(language)
    case RawArtifact(_, _, _, hash, _) => NoCapitals(hash)
    case ProcessingRun(_, _, processor, version, config, _) =>
      NoCapitals(processor) && NoCapitals(version) && NoCapitals(config)
    case Candidate(_, _, _, _, _, _, _, rule) => NoCapitals(rule)
    case Observation(_, _, _, _, _, _, _, _, _, _, _, key) => CasedKey(key)
    case _ => true
  }

  lemma SmallSame(engine: Engine, a: string, b: string)
    requires Discerning(engine) && NoCapitals(a) && NoCapitals(b) && Same(engine, a, b)
    ensures a == b
  {
    hide Same, Lowered;
    SmallStaysApart(a, b);
  }

  lemma CapitalSame(engine: Engine, a: string, b: string)
    requires Discerning(engine) && NoSmall(a) && NoSmall(b) && Same(engine, a, b)
    ensures a == b
  {
    hide Same, Lowered;
    CapitalsStayApart(a, b);
  }

  lemma KeySame(engine: Engine, a: string, b: string)
    requires Discerning(engine) && CasedKey(a) && CasedKey(b) && Same(engine, a, b)
    ensures a == b
  {
    hide Same, Lowered, CasedKey;
    CasedKeyIsVisible(a);
    CasedKeyIsVisible(b);
    CasedKeysStayApart(a, b);
  }

  /** Rows whose texts keep to one case clash on MariaDB only if they clash on PostgreSQL. */
  lemma CasedClash(engine: Engine, r: Row, q: Row)
    requires Discerning(engine) && Cased(r) && Cased(q) && Clash(engine, r, q)
    ensures Clash(Postgres, r, q)
  {
    hide Discerning, NoCapitals, NoSmall, CasedKey;
    if PkOf(r) != PkOf(q) {
      match r
      case Source(_, slug, _) => SmallSame(engine, slug, q.slug);
      case Shop(_, slug) => SmallSame(engine, slug, q.slug);
      case Card(_, _, _, _, _, _, _) => CardClash(engine, r, q);
      case RawArtifact(_, _, _, hash, _) => SmallSame(engine, hash, q.contentHash);
      case ProcessingRun(_, _, processor, version, config, _) =>
        SmallSame(engine, processor, q.processor);
        SmallSame(engine, version, q.version);
        SmallSame(engine, config, q.configRef);
      case Candidate(_, _, _, _, _, _, _, rule) => SmallSame(engine, rule, q.ruleVersion);
      case Observation(_, _, _, _, _, _, _, _, _, _, _, key) => KeySame(engine, key, q.key);
      case _ =>
    }
  }

  lemma CardClash(engine: Engine, r: Row, q: Row)
    requires Discerning(engine) && Cased(r) && Cased(q) && r.Card? && q.Card?
    requires UniqueOf(engine, r) == UniqueOf(engine, q)
    ensures UniqueOf(Postgres, r) == UniqueOf(Postgres, q)
  {
    hide Discerning, NoCapitals, NoSmall;
    SmallSame(engine, r.tcg, q.tcg);
    CapitalSame(engine, r.setCode, q.setCode);
    CapitalSame(engine, r.cardNumber, q.cardNumber);
    CapitalSame(engine, r.rarity, q.rarity);
    SmallSame(engine, r.edition, q.edition);
    SmallSame(engine, r.language, q.language);
  }

  /** Digits have no case. */
  lemma {:induction false} DecimalHasNoCase(n: nat)
    ensures NoCapitals(Decimal(n)) && NoSmall(Decimal(n))
  {
    if n >= 10 {
      DecimalHasNoCase(n / 10);
    }
  }

  lemma PaddedHasNoCase(w: nat, n: nat)
    ensures NoCapitals(Padded(w, n)) && NoSmall(Padded(w, n))
  {
    DecimalHasNoCase(n);
  }

  lemma {:induction false} HexHasNoCapitals(w: nat, n: nat)
    ensures NoCapitals(Hex(w, n))
  {
    if w > 0 {
      HexHasNoCapitals(w - 1, n / 16);
      DigitIsSmall(n % 16);
    }
  }

  lemma DigitIsSmall(d: nat)
    requires d < 16
    ensures var c := Digit(d); '!' <= c <= '~' && !('A' <= c <= 'Z')
  {
  }

  /** A key made of fields that keep to one case each. */
  lemma KeyIsCased(k: KeyFields)
    requires NoCapitals(k.slug) && NoCapitals(k.priceType) && NoCapitals(k.date)
    requires NoSmall(k.condition) && NoBar(k.condition)
    ensures CasedKey(IdempotencyKey(k))
  {
    DecimalHasNoCase(k.artifact);
    DecimalHasNoCase(k.row);
    hide Decimal;
    var small := k.slug + "|" + Decimal(k.artifact) + "|" + Decimal(k.row) + "|" + k.priceType + "|" + k.date;
    assert NoCapitals(small);
    assert IdempotencyKey(k) == small + "|" + k.condition;
    assert IsCasedKey(IdempotencyKey(k), small, k.condition);
  }
}

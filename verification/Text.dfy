/** Decimal and hexadecimal text, and bar-separated keys (`idempotency_key` in generate.py). */
module Text {
  datatype Option<+T> = None | Some(value: T)

  const DIGITS := "0123456789abcdef"

  function Digit(d: nat): char
    requires d < 16
  {
    DIGITS[d]
  }

  function DigitValue(c: char): nat {
    if '0' <= c <= '9' then c as int - '0' as int
    else if 'a' <= c <= 'f' then c as int - 'a' as int + 10
    else 0
  }

  lemma DigitRoundTrip(d: nat)
    requires d < 16
    ensures DigitValue(Digit(d)) == d
    ensures Digit(d) != '|'
  {
  }

  /** `str(n)` */
  function Decimal(n: nat): (s: string)
    ensures |s| > 0
  {
    if n < 10 then [Digit(n)] else Decimal(n / 10) + [Digit(n % 10)]
  }

  /** `int(s)` of a digit string */
  function Read(s: string): nat {
    if s == "" then 0 else Read(s[..|s| - 1]) * 10 + DigitValue(s[|s| - 1])
  }

  lemma {:induction false} DecimalRoundTrip(n: nat)
    ensures Read(Decimal(n)) == n
    ensures NoBar(Decimal(n))
  {
    if n < 10 {
      DigitRoundTrip(n);
      assert Decimal(n)[..0] == "";
    } else {
      DecimalRoundTrip(n / 10);
      DigitRoundTrip(n % 10);
      var s := Decimal(n);
      assert s[..|s| - 1] == Decimal(n / 10);
    }
  }

  function Zeros(k: nat): (s: string)
    ensures |s| == k
  {
    seq(k, _ => '0')
  }

  /** `f"{n:0wd}"` */
  function Padded(w: nat, n: nat): string {
    var s := Decimal(n);
    if |s| >= w then s else Zeros(w - |s|) + s
  }

  lemma {:induction false} ReadSkipsZeros(k: nat, s: string)
    ensures Read(Zeros(k) + s) == Read(s)
  {
    var t := Zeros(k) + s;
    if s != "" {
      ReadSkipsZeros(k, s[..|s| - 1]);
      assert t[..|t| - 1] == Zeros(k) + s[..|s| - 1];
    } else if k > 0 {
      ReadSkipsZeros(k - 1, s);
      assert t[..|t| - 1] == Zeros(k - 1) + s;
    } else {
      assert t == s;
    }
  }

  lemma PaddedRoundTrip(w: nat, n: nat)
    ensures Read(Padded(w, n)) == n
  {
    DecimalRoundTrip(n);
    var s := Decimal(n);
    if |s| < w {
      ReadSkipsZeros(w - |s|, s);
    }
  }

  /** `f"{n:0wx}"` for an `n` of at most `w` hexadecimal digits */
  function Hex(w: nat, n: nat): (s: string)
    ensures |s| == w
  {
    if w == 0 then "" else Hex(w - 1, n / 16) + [Digit(n % 16)]
  }

  function Pow16(w: nat): nat {
    if w == 0 then 1 else 16 * Pow16(w - 1)
  }

  lemma {:induction false} HexInjective(w: nat, m: nat, n: nat)
    requires m < Pow16(w) && n < Pow16(w) && Hex(w, m) == Hex(w, n)
    ensures m == n
  {
    if w > 0 {
      var s, t := Hex(w, m), Hex(w, n);
      assert s[..w - 1] == Hex(w - 1, m / 16) && t[..w - 1] == Hex(w - 1, n / 16);
      assert s[w - 1] == Digit(m % 16) && t[w - 1] == Digit(n % 16);
      DigitRoundTrip(m % 16);
      DigitRoundTrip(n % 16);
      HexInjective(w - 1, m / 16, n / 16);
    }
  }

  /** Eight hexadecimal digits hold exactly the 32-bit words. */
  lemma Hex8Injective(m: nat, n: nat)
    requires m < 0x1_0000_0000 && n < 0x1_0000_0000 && Hex(8, m) == Hex(8, n)
    ensures m == n
  {
    assert Pow16(4) == 0x1_0000;
    assert Pow16(8) == 0x1_0000_0000;
    HexInjective(8, m, n);
  }

  // ---------------------------------------------------------------- keys

  predicate NoBar(s: string) {
    '|' !in s
  }

  /** `s.split("|")` */
  function Split(s: string): (fields: seq<string>)
    ensures |fields| > 0
  {
    if s == "" then [""] else
      var rest := Split(s[1..]);
      if s[0] == '|' then [""] + rest else [[s[0]] + rest[0]] + rest[1..]
  }

  lemma {:induction false} SplitField(f: string, rest: string)
    requires NoBar(f)
    ensures Split(f + "|" + rest) == [f] + Split(rest)
  {
    var s := f + "|" + rest;
    if f == "" {
      assert s[1..] == rest;
    } else {
      SplitField(f[1..], rest);
      assert s[1..] == f[1..] + "|" + rest;
      assert [f[0]] + f[1..] == f;
    }
  }

  lemma {:induction false} SplitLast(f: string)
    requires NoBar(f)
    ensures Split(f) == [f]
  {
    if f != "" {
      SplitLast(f[1..]);
      assert [f[0]] + f[1..] == f;
    }
  }

  datatype KeyFields = KeyFields(slug: string, artifact: nat, row: nat, priceType: string,
                                 date: string, condition: string)
  {
    /** No text field holds the separator, as with every field the callers pass. */
    predicate BarFree() {
      NoBar(slug) && NoBar(priceType) && NoBar(date) && NoBar(condition)
    }
  }

  function IdempotencyKey(k: KeyFields): string {
    k.slug + "|" + (Decimal(k.artifact) + "|" + (Decimal(k.row) + "|" +
      (k.priceType + "|" + (k.date + "|" + k.condition))))
  }

  /** Reads a key back: split on the bar, then read the two decimals. */
  function ParseKey(s: string): Option<KeyFields> {
    var f := Split(s);
    if |f| != 6 then None
    else Some(KeyFields(f[0], Read(f[1]), Read(f[2]), f[3], f[4], f[5]))
  }

  lemma KeyRoundTrip(k: KeyFields)
    requires k.BarFree()
    ensures ParseKey(IdempotencyKey(k)) == Some(k)
  {
    DecimalRoundTrip(k.artifact);
    DecimalRoundTrip(k.row);
    var t5 := k.date + "|" + k.condition;
    var t4 := k.priceType + "|" + t5;
    var t3 := Decimal(k.row) + "|" + t4;
    var t2 := Decimal(k.artifact) + "|" + t3;
    SplitLast(k.condition);
    SplitField(k.date, k.condition);
    SplitField(k.priceType, t5);
    SplitField(Decimal(k.row), t4);
    SplitField(Decimal(k.artifact), t3);
    SplitField(k.slug, t2);
  }

  /** Bar-free fields are determined by their key. */
  lemma KeyInjective(a: KeyFields, b: KeyFields)
    requires a.BarFree() && b.BarFree() && IdempotencyKey(a) == IdempotencyKey(b)
    ensures a == b
  {
    KeyRoundTrip(a);
    KeyRoundTrip(b);
  }

  // --------------------------------------------------- ambiguous keys

  /** `"|".join(fields)` */
  function Join(fields: seq<string>): string
    requires fields != []
  {
    if |fields| == 1 then fields[0] else fields[0] + "|" + Join(fields[1..])
  }

  lemma {:induction false} JoinSplit(s: string)
    ensures Join(Split(s)) == s
  {
    if s != "" {
      var rest := Split(s[1..]);
      JoinSplit(s[1..]);
      assert s == [s[0]] + s[1..];
      if s[0] != '|' && |rest| > 1 {
        assert ([[s[0]] + rest[0]] + rest[1..])[1..] == rest[1..];
      } else if s[0] == '|' {
        assert ([""] + rest)[1..] == rest;
      }
    }
  }

  lemma {:induction false} JoinAppend(a: seq<string>, b: seq<string>)
    requires a != [] && b != []
    ensures Join(a + b) == Join(a) + "|" + Join(b)
  {
    if |a| == 1 {
      assert (a + b)[1..] == b;
    } else {
      JoinAppend(a[1..], b);
      assert (a + b)[1..] == a[1..] + b;
    }
  }

  /** What `Split` makes of one more character in front. */
  function Front(c: char, fields: seq<string>): seq<string>
    requires fields != []
  {
    if c == '|' then [""] + fields else [[c] + fields[0]] + fields[1..]
  }

  lemma FrontAppend(c: char, p: seq<string>, q: seq<string>)
    requires p != []
    ensures Front(c, p + q) == Front(c, p) + q
  {
    assert (p + q)[1..] == p[1..] + q;
  }

  lemma SplitFront(c: char, s: string)
    ensures Split([c] + s) == Front(c, Split(s))
  {
    assert ([c] + s)[1..] == s;
  }

  lemma {:induction false} SplitAppend(a: string, b: string)
    ensures Split(a + "|" + b) == Split(a) + Split(b)
  {
    if a == "" {
      SplitFront('|', b);
      assert a + "|" + b == ['|'] + b;
    } else {
      SplitAppend(a[1..], b);
      assert a == [a[0]] + a[1..] && a + "|" + b == [a[0]] + (a[1..] + "|" + b);
      SplitFront(a[0], a[1..]);
      SplitFront(a[0], a[1..] + "|" + b);
      hide Split, Front;
      FrontAppend(a[0], Split(a[1..]), Split(b));
    }
  }

  lemma {:induction false} SplitCounts(s: string)
    ensures |Split(s)| == 1 <==> NoBar(s)
  {
    if s != "" {
      SplitCounts(s[1..]);
      assert s == [s[0]] + s[1..];
    }
  }

  lemma Regroup(h: seq<string>, a: string, b: string, t: seq<string>)
    ensures h + ([a] + ([b] + t)) == h + [a, b] + t
  {
  }

  lemma Bars(a: string, b: string, c: string)
    ensures a + "|" + (b + "|" + c) == a + "|" + b + "|" + c
  {
  }

  /** The fields of a key, and the fields of its fields. */
  lemma SplitKey(k: KeyFields)
    ensures Split(IdempotencyKey(k)) == Split(k.slug) + [Decimal(k.artifact), Decimal(k.row)]
                                        + (Split(k.priceType) + Split(k.date) + Split(k.condition))
  {
    DecimalRoundTrip(k.artifact);
    DecimalRoundTrip(k.row);
    hide Split, Decimal, NoBar;
    var t5 := k.date + "|" + k.condition;
    var t4 := k.priceType + "|" + t5;
    var t3 := Decimal(k.row) + "|" + t4;
    SplitAppend(k.slug, Decimal(k.artifact) + "|" + t3);
    SplitField(Decimal(k.artifact), t3);
    SplitField(Decimal(k.row), t4);
    SplitAppend(k.priceType, t5);
    SplitAppend(k.date, k.condition);
    var tail := Split(k.priceType) + (Split(k.date) + Split(k.condition));
    assert tail == Split(k.priceType) + Split(k.date) + Split(k.condition);
    Regroup(Split(k.slug), Decimal(k.artifact), Decimal(k.row), tail);
  }

  /** The slug ends in a bar and a number, or holds two numbers between bars. */
  ghost predicate NumbersInSlug(slug: string) {
    || (exists a, x :: EndsInNumber(slug, a, x))
    || exists a, x, y, b :: HoldsNumbers(slug, a, x, y, b)
  }

  predicate EndsInNumber(slug: string, a: string, x: nat) {
    slug == a + "|" + Decimal(x)
  }

  predicate HoldsNumbers(slug: string, a: string, x: nat, y: nat, b: string) {
    slug == a + "|" + Decimal(x) + "|" + Decimal(y) + "|" + b
  }

  /** A bar in one of the last three fields, or numbers of its own in the slug. */
  ghost predicate Ambiguous(k: KeyFields) {
    !NoBar(k.priceType) || !NoBar(k.date) || !NoBar(k.condition) || NumbersInSlug(k.slug)
  }

  lemma AtBar(s: string) returns (a: string, b: string)
    requires !NoBar(s)
    ensures s == a + "|" + b
  {
    var i :| 0 <= i < |s| && s[i] == '|';
    a, b := s[..i], s[i + 1..];
    assert s == s[..i] + [s[i]] + s[i + 1..];
  }

  /** The last three fields as one text. */
  lemma KeyTail(k: KeyFields)
    ensures IdempotencyKey(k) == k.slug + "|" + Decimal(k.artifact) + "|" + Decimal(k.row) + "|"
                                 + (k.priceType + "|" + k.date + "|" + k.condition)
  {
    assert k.priceType + "|" + (k.date + "|" + k.condition) == k.priceType + "|" + k.date + "|" + k.condition;
  }

  /** A bar in the price type, the date or the condition is always read two ways: other fields share the key. */
  lemma BarInFieldCollides(k: KeyFields) returns (other: KeyFields)
    requires !NoBar(k.priceType) || !NoBar(k.date) || !NoBar(k.condition)
    ensures other != k && IdempotencyKey(other) == IdempotencyKey(k)
  {
    if !NoBar(k.condition) {
      var a, b := AtBar(k.condition);
      other := k.(date := k.date + "|" + a, condition := b);
      assert |other.condition| < |k.condition|;
      assert k.priceType + "|" + k.date + "|" + k.condition == k.priceType + "|" + other.date + "|" + b;
    } else if !NoBar(k.date) {
      var a, b := AtBar(k.date);
      other := k.(date := a, condition := b + "|" + k.condition);
      assert |other.date| < |k.date|;
      assert k.priceType + "|" + k.date + "|" + k.condition == k.priceType + "|" + a + "|" + other.condition;
    } else {
      var a, b := AtBar(k.priceType);
      other := k.(priceType := a, date := b + "|" + k.date);
      assert |other.priceType| < |k.priceType|;
      assert k.priceType + "|" + k.date + "|" + k.condition == a + "|" + other.date + "|" + k.condition;
    }
    hide IdempotencyKey;
    KeyTail(k);
    KeyTail(other);
  }

  lemma NumbersInSlugCollide(k: KeyFields) returns (other: KeyFields)
    requires NumbersInSlug(k.slug)
    ensures other != k && IdempotencyKey(other) == IdempotencyKey(k)
  {
    hide IdempotencyKey, Decimal;
    if a, x :| EndsInNumber(k.slug, a, x) {
      other := EndCollides(k, a, x);
    } else {
      var a, x, y, b :| HoldsNumbers(k.slug, a, x, y, b);
      other := MiddleCollides(k, a, x, y, b);
    }
  }

  lemma EndCollides(k: KeyFields, a: string, x: nat) returns (other: KeyFields)
    requires EndsInNumber(k.slug, a, x)
    ensures other != k && IdempotencyKey(other) == IdempotencyKey(k)
  {
    other := KeyFields(a, x, k.artifact, Decimal(k.row) + "|" + k.priceType, k.date, k.condition);
    KeyTail(k);
    KeyTail(other);
    hide IdempotencyKey, Decimal;
    var row, dated := Decimal(k.row), k.priceType + "|" + k.date;
    assert |other.slug| < |k.slug|;
    Bars(row, k.priceType, k.date);
    Bars(row, dated, k.condition);
    Bars(k.slug + "|" + Decimal(k.artifact), row, dated + "|" + k.condition);
  }

  lemma MiddleCollides(k: KeyFields, a: string, x: nat, y: nat, b: string) returns (other: KeyFields)
    requires HoldsNumbers(k.slug, a, x, y, b)
    ensures other != k && IdempotencyKey(other) == IdempotencyKey(k)
  {
    var own := b + "|" + Decimal(k.artifact) + "|" + Decimal(k.row);
    other := KeyFields(a, x, y, own + "|" + k.priceType, k.date, k.condition);
    KeyTail(k);
    KeyTail(other);
    hide IdempotencyKey, Decimal;
    var numbers, dated := a + "|" + Decimal(x) + "|" + Decimal(y), k.priceType + "|" + k.date;
    assert |other.slug| < |k.slug|;
    Bars(own, k.priceType, k.date);
    Bars(own, dated, k.condition);
    Bars(numbers, own, dated + "|" + k.condition);
    Bars(numbers, b + "|" + Decimal(k.artifact), Decimal(k.row));
    Bars(numbers, b, Decimal(k.artifact));
  }

  /** A second reading with a shorter slug finds its two numbers further on. */
  lemma NumbersFurtherOn(k: KeyFields, other: KeyFields)
    requires |Split(other.slug)| < |Split(k.slug)|
    requires Split(IdempotencyKey(k)) == Split(IdempotencyKey(other))
    ensures var parts, m := Split(k.slug), |Split(other.slug)|;
            parts[m] == Decimal(other.artifact) && (m + 1 < |parts| ==> parts[m + 1] == Decimal(other.row))
  {
    SplitKey(k);
    SplitKey(other);
    hide IdempotencyKey, Split, Decimal;
    var parts, m := Split(k.slug), |Split(other.slug)|;
    var whole := Split(IdempotencyKey(k));
    assert whole[m] == parts[m] && (m + 1 < |parts| ==> whole[m + 1] == parts[m + 1]);
    assert whole[m] == Decimal(other.artifact) && whole[m + 1] == Decimal(other.row);
  }

  /** So the slug of the key holds numbers of its own. */
  lemma ShorterSlug(k: KeyFields, other: KeyFields)
    requires |Split(other.slug)| < |Split(k.slug)|
    requires Split(IdempotencyKey(k)) == Split(IdempotencyKey(other))
    ensures NumbersInSlug(k.slug)
  {
    NumbersFurtherOn(k, other);
    JoinSplit(k.slug);
    hide IdempotencyKey, Split, Decimal, Join;
    var parts, m := Split(k.slug), |Split(other.slug)|;
    if m + 2 < |parts| {
      TwoNumbers(parts, m, other.artifact, other.row);
    } else {
      var front, last := parts[..|parts| - 1], parts[|parts| - 1];
      assert parts == front + [last];
      JoinAppend(front, [last]);
      JoinOne(last);
      assert EndsInNumber(k.slug, Join(front), if m + 1 == |parts| then other.artifact else other.row);
    }
  }

  lemma JoinOne(s: string)
    ensures Join([s]) == s
  {
  }

  lemma TwoNumbers(parts: seq<string>, m: nat, x: nat, y: nat)
    requires 0 < m && m + 2 < |parts| && parts[m] == Decimal(x) && parts[m + 1] == Decimal(y)
    ensures HoldsNumbers(Join(parts), Join(parts[..m]), x, y, Join(parts[m + 2..]))
  {
    hide Decimal;
    var front, mid, back := parts[..m], parts[m..m + 2], parts[m + 2..];
    assert parts == (front + mid) + back && mid == [Decimal(x)] + [Decimal(y)];
    JoinAppend(front + mid, back);
    JoinAppend(front, mid);
    JoinAppend([Decimal(x)], [Decimal(y)]);
    assert Join([Decimal(x)]) == Decimal(x) && Join([Decimal(y)]) == Decimal(y);
    hide Join;
    Bars(Join(front), Decimal(x), Decimal(y));
  }

  /**
   * A key can be read in a second way exactly when its price type, date or condition holds a bar, or
   * its slug numbers of its own.
   */
  lemma KeyIsAmbiguousExactly(k: KeyFields)
    ensures (exists other :: other != k && IdempotencyKey(other) == IdempotencyKey(k)) <==> Ambiguous(k)
  {
    hide IdempotencyKey, NumbersInSlug;
    if !NoBar(k.priceType) || !NoBar(k.date) || !NoBar(k.condition) {
      var other := BarInFieldCollides(k);
    } else if NumbersInSlug(k.slug) {
      var other := NumbersInSlugCollide(k);
    } else {
      forall other | IdempotencyKey(other) == IdempotencyKey(k)
        ensures other == k
      {
        OneReading(k, other);
      }
    }
  }

  lemma OneReading(k: KeyFields, other: KeyFields)
    requires !Ambiguous(k) && IdempotencyKey(other) == IdempotencyKey(k)
    ensures other == k
  {
    SplitKey(k);
    SplitKey(other);
    SplitCounts(k.priceType);
    SplitCounts(k.date);
    SplitCounts(k.condition);
    hide IdempotencyKey, NumbersInSlug, Decimal;
    var n, m := |Split(k.slug)|, |Split(other.slug)|;
    if m < n {
      ShorterSlug(k, other);
      assert false;
    }
    SamePieces(k, other);
  }

  /** As many fields in the slug leave one field for each of the others. */
  lemma SamePieces(k: KeyFields, other: KeyFields)
    requires |Split(k.priceType)| == |Split(k.date)| == |Split(k.condition)| == 1
    requires |Split(other.slug)| >= |Split(k.slug)|
    requires Split(k.slug) + [Decimal(k.artifact), Decimal(k.row)]
             + (Split(k.priceType) + Split(k.date) + Split(k.condition))
             == Split(other.slug) + [Decimal(other.artifact), Decimal(other.row)]
                + (Split(other.priceType) + Split(other.date) + Split(other.condition))
    ensures other == k
  {
    var n := |Split(k.slug)|;
    var a := Split(k.slug) + [Decimal(k.artifact), Decimal(k.row)]
             + (Split(k.priceType) + Split(k.date) + Split(k.condition));
    var b := Split(other.slug) + [Decimal(other.artifact), Decimal(other.row)]
             + (Split(other.priceType) + Split(other.date) + Split(other.condition));
    assert |a| == n + 5 && |Split(other.slug)| == n;
    assert a[..n] == Split(k.slug) && b[..n] == Split(other.slug);
    assert a[n] == Decimal(k.artifact) && b[n] == Decimal(other.artifact);
    assert a[n + 1] == Decimal(k.row) && b[n + 1] == Decimal(other.row);
    assert a[n + 2] == Split(k.priceType)[0] && b[n + 2] == Split(other.priceType)[0];
    assert a[n + 3] == Split(k.date)[0] && b[n + 3] == Split(other.date)[0];
    assert a[n + 4] == Split(k.condition)[0] && b[n + 4] == Split(other.condition)[0];
    DecimalRoundTrip(k.artifact);
    DecimalRoundTrip(other.artifact);
    DecimalRoundTrip(k.row);
    DecimalRoundTrip(other.row);
    JoinSplit(k.slug);
    JoinSplit(other.slug);
    JoinSplit(k.priceType);
    JoinSplit(other.priceType);
    JoinSplit(k.date);
    JoinSplit(other.date);
    JoinSplit(k.condition);
    JoinSplit(other.condition);
    hide Split, Decimal;
  }
}

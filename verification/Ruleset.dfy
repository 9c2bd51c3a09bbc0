/**
 * Keeping the committed branch ruleset and the enforced one in agreement (scripts/ruleset.py):
 * comparing them, and the check, apply and export commands over the file and GitHub's copy.
 */
module Ruleset {
  import opened Text

  datatype Json = Null | Bool(b: bool) | Number(n: int) | Str(s: string) | List(items: seq<Json>)
    | Object(members: map<string, Json>)

  /** A rule; absent parameters are not the same text as empty ones, but compare alike. */
  datatype Rule = Rule(kind: string, parameters: Option<Json>)

  /** The declared fields other than the rules. */
  datatype Field = Name | Target | Enforcement | Conditions

  const FIELDS := [Name, Target, Enforcement, Conditions]

  /** `extra` is whatever else GitHub adds; `bypassActors` is None where the token may not see it. */
  datatype Body = Body(fields: map<Field, Json>, rules: Option<seq<Rule>>, bypassActors: Option<seq<Json>>,
                       extra: map<string, Json>)

  // ----------------------------------------------------- string order

  predicate Less(a: string, b: string) {
    b != "" && (a == "" || a[0] < b[0] || (a[0] == b[0] && Less(a[1..], b[1..])))
  }

  lemma {:induction false} LessIsTotal(a: string, b: string)
    ensures (if Less(a, b) then 1 else 0) + (if Less(b, a) then 1 else 0) + (if a == b then 1 else 0) == 1
  {
    if a != "" && b != "" && a[0] == b[0] {
      LessIsTotal(a[1..], b[1..]);
      assert a == [a[0]] + a[1..] && b == [b[0]] + b[1..];
    }
  }

  lemma {:induction false} LessIsTransitive(a: string, b: string, c: string)
    requires Less(a, b) && !Less(c, b)
    ensures Less(a, c)
  {
    if a != "" && b != "" && c != "" && a[0] == b[0] == c[0] {
      LessIsTransitive(a[1..], b[1..], c[1..]);
    }
  }

  // -------------------------------------------------------- declared

  /** Into a list sorted by type, after the rules of the same type. */
  function Insert(r: Rule, s: seq<Rule>): seq<Rule> {
    if s == [] then [r]
    else if Less(r.kind, s[|s| - 1].kind) then Insert(r, s[..|s| - 1]) + [s[|s| - 1]]
    else s + [r]
  }

  /** `sorted(rules, key=type)`, which keeps rules of one type in their order. */
  function Sort(s: seq<Rule>): seq<Rule> {
    if s == [] then [] else Insert(s[|s| - 1], Sort(s[..|s| - 1]))
  }

  function Declared(b: Body): Body {
    Body(b.fields, if b.rules.None? then None else Some(Sort(b.rules.value)), None, map[])
  }

  predicate Complete(b: Body) {
    b.rules.Some? && forall f :: f in FIELDS ==> f in b.fields
  }

  function Parameters(r: Rule): Json {
    if r.parameters.None? then Object(map[]) else r.parameters.value
  }

  /** `_by_type`: of two rules of one type the later one counts. */
  function ByType(rules: seq<Rule>): map<string, Json> {
    if rules == [] then map[]
    else ByType(rules[..|rules| - 1])[rules[|rules| - 1].kind := Parameters(rules[|rules| - 1])]
  }

  function RulesOf(b: Body): seq<Rule> {
    if b.rules.None? then [] else b.rules.value
  }

  ghost predicate SortedRules(s: seq<Rule>) {
    forall i, j :: 0 <= i < j < |s| ==> !Less(s[j].kind, s[i].kind)
  }

  lemma {:induction false} InsertKeeps(r: Rule, s: seq<Rule>)
    ensures multiset(Insert(r, s)) == multiset(s) + multiset{r}
  {
    hide Less;
    if s != [] {
      InsertKeeps(r, s[..|s| - 1]);
      assert s == s[..|s| - 1] + [s[|s| - 1]];
    }
  }

  lemma {:induction false} InsertSorts(r: Rule, s: seq<Rule>)
    requires SortedRules(s)
    ensures SortedRules(Insert(r, s))
  {
    hide Less;
    if s != [] {
      var front, last := s[..|s| - 1], s[|s| - 1];
      if Less(r.kind, last.kind) {
        InsertSorts(r, front);
        InsertKeeps(r, front);
        NoneAfter(Insert(r, front), r, s);
      } else {
        forall i | 0 <= i < |s|
          ensures !Less(r.kind, s[i].kind)
        {
          NotBelow(r.kind, s[i].kind, last.kind);
        }
      }
    }
  }

  lemma NotBelow(r: string, a: string, last: string)
    requires !Less(r, last) && (a == last || !Less(last, a))
    ensures !Less(r, a)
  {
    if Less(r, a) {
      LessIsTransitive(r, a, last);
    }
  }

  lemma NoneAfter(t: seq<Rule>, r: Rule, s: seq<Rule>)
    requires s != [] && SortedRules(s) && Less(r.kind, s[|s| - 1].kind)
    requires multiset(t) == multiset(s[..|s| - 1]) + multiset{r}
    ensures forall i :: 0 <= i < |t| ==> !Less(s[|s| - 1].kind, t[i].kind)
  {
    hide Less;
    var front, last := s[..|s| - 1], s[|s| - 1];
    forall i | 0 <= i < |t|
      ensures !Less(last.kind, t[i].kind)
    {
      assert t[i] in multiset(t);
      LessIsTotal(r.kind, last.kind);
      assert t[i] == r || t[i] in front;
    }
  }

  lemma {:induction false} SortSorts(s: seq<Rule>)
    ensures SortedRules(Sort(s)) && multiset(Sort(s)) == multiset(s)
  {
    if s != [] {
      SortSorts(s[..|s| - 1]);
      InsertSorts(s[|s| - 1], Sort(s[..|s| - 1]));
      InsertKeeps(s[|s| - 1], Sort(s[..|s| - 1]));
      assert s == s[..|s| - 1] + [s[|s| - 1]];
    }
  }

  /** Inserting a rule makes it the one that counts for its type. */
  lemma {:induction false} ByTypeInsert(r: Rule, s: seq<Rule>)
    ensures ByType(Insert(r, s)) == ByType(s)[r.kind := Parameters(r)]
  {
    hide Less, Parameters;
    if s != [] && Less(r.kind, s[|s| - 1].kind) {
      var front, last := s[..|s| - 1], s[|s| - 1];
      ByTypeInsert(r, front);
      ByTypeLast(Insert(r, front), last);
      assert r.kind != last.kind by {
        LessIsTotal(r.kind, last.kind);
      }
    } else {
      ByTypeLast(s, r);
    }
  }

  lemma ByTypeLast(s: seq<Rule>, r: Rule)
    ensures ByType(s + [r]) == ByType(s)[r.kind := Parameters(r)]
  {
    assert (s + [r])[..|s|] == s;
  }

  /** Putting rules in a stable order does not change what each type stands for. */
  lemma {:induction false} ByTypeSort(s: seq<Rule>)
    ensures ByType(Sort(s)) == ByType(s)
  {
    if s != [] {
      ByTypeSort(s[..|s| - 1]);
      ByTypeInsert(s[|s| - 1], Sort(s[..|s| - 1]));
    }
  }

  ghost predicate DistinctTypes(s: seq<Rule>) {
    forall i, j :: 0 <= i < j < |s| ==> s[i].kind != s[j].kind
  }

  lemma {:induction false} ByTypeMembers(s: seq<Rule>)
    requires DistinctTypes(s)
    ensures forall t :: t in ByType(s) <==> exists i :: 0 <= i < |s| && s[i].kind == t
    ensures forall i :: 0 <= i < |s| ==> s[i].kind in ByType(s) && ByType(s)[s[i].kind] == Parameters(s[i])
  {
    if s != [] {
      var front, last := s[..|s| - 1], s[|s| - 1];
      ByTypeMembers(front);
      assert forall i :: 0 <= i < |front| ==> front[i] == s[i];
    }
  }

  lemma ByTypeForgetsOrder(s: seq<Rule>, t: seq<Rule>)
    requires DistinctTypes(s) && DistinctTypes(t) && multiset(s) == multiset(t)
    ensures ByType(s) == ByType(t)
  {
    ByTypeWithin(s, t);
    ByTypeWithin(t, s);
  }

  lemma ByTypeWithin(s: seq<Rule>, t: seq<Rule>)
    requires DistinctTypes(s) && DistinctTypes(t) && multiset(s) == multiset(t)
    ensures forall k :: k in ByType(s) ==> k in ByType(t) && ByType(s)[k] == ByType(t)[k]
  {
    ByTypeMembers(s);
    ByTypeMembers(t);
    forall k | k in ByType(s)
      ensures k in ByType(t) && ByType(s)[k] == ByType(t)[k]
    {
      var i :| 0 <= i < |s| && s[i].kind == k;
      assert s[i] in multiset(t);
      var j :| 0 <= j < |t| && t[j] == s[i];
    }
  }

  // ------------------------------------------------------ differences

  datatype Difference =
    | OfField(field: Field, want: Json, have: Json)
    | NotEnforced(kind: string)
    | NotCommitted(kind: string)
    | OfRule(kind: string, wanted: Json, found: Json)

  function Get<K, V>(m: map<K, V>, k: K): Option<V> {
    if k in m then Some(m[k]) else None
  }

  /** `get(field)`, where a missing field and a null one are the same. */
  function FieldOf(b: Body, f: Field): Json {
    if f in b.fields then b.fields[f] else Null
  }

  function FieldLines(want: Body, have: Body, n: nat): seq<Difference>
    requires n <= |FIELDS|
  {
    if n == 0 then [] else
      var w, h := FieldOf(want, FIELDS[n - 1]), FieldOf(have, FIELDS[n - 1]);
      FieldLines(want, have, n - 1) + if w != h then [OfField(FIELDS[n - 1], w, h)] else []
  }

  function RuleLine(t: string, want: map<string, Json>, have: map<string, Json>): seq<Difference>
    requires t in want || t in have
  {
    if t !in have then [NotEnforced(t)]
    else if t !in want then [NotCommitted(t)]
    else if want[t] != have[t] then [OfRule(t, want[t], have[t])]
    else []
  }

  function RuleLines(types: seq<string>, want: map<string, Json>, have: map<string, Json>): seq<Difference>
    requires forall t :: t in types ==> t in want || t in have
  {
    if types == [] then []
    else RuleLines(types[..|types| - 1], want, have) + RuleLine(types[|types| - 1], want, have)
  }

  lemma LeastExists(types: set<string>)
    requires types != {}
    ensures exists t :: t in types && forall u :: u in types ==> !Less(u, t)
  {
    var t :| t in types;
    var rest := types - {t};
    if rest != {} {
      LeastExists(rest);
      var least :| least in rest && forall u :: u in rest ==> !Less(u, least);
      var m := if Less(t, least) then t else least;
      forall u | u in types
        ensures !Less(u, m)
      {
        LessIsTotal(t, t);
        LessIsTotal(t, least);
        if u != t && m == t && Less(u, t) {
          LessIsTransitive(u, t, least);
        }
      }
      assert m in types;
    } else {
      LessIsTotal(t, t);
      assert forall u :: u in types ==> u == t || u in rest;
    }
  }

  /** `sorted(set)` */
  ghost function Ascending(types: set<string>): seq<string> {
    if types == {} then [] else
      LeastExists(types);
      var least :| least in types && forall u :: u in types ==> !Less(u, least);
      [least] + Ascending(types - {least})
  }

  ghost predicate Increasing(s: seq<string>) {
    forall i, j :: 0 <= i < j < |s| ==> Less(s[i], s[j])
  }

  lemma {:induction false} AscendingIs(types: set<string>)
    ensures Increasing(Ascending(types)) && forall t :: t in Ascending(types) <==> t in types
  {
    if types != {} {
      var s := Ascending(types);
      AscendingIs(types - {s[0]});
      forall j | 0 < j < |s|
        ensures Less(s[0], s[j])
      {
        assert s[j] in s[1..];
        LessIsTotal(s[0], s[j]);
      }
    }
  }

  /** Two increasing lists of the same types are the same list. */
  lemma {:induction false} IncreasingUnique(s: seq<string>, t: seq<string>)
    requires Increasing(s) && Increasing(t) && forall k :: k in s <==> k in t
    ensures s == t
  {
    if s != [] {
      NotEmptyEither(s, t);
      FirstsAgree(s, t);
      forall k
        ensures k in s[1..] <==> k in t[1..]
      {
        InRest(s, k);
        InRest(t, k);
      }
      IncreasingUnique(s[1..], t[1..]);
      assert s == [s[0]] + s[1..] && t == [t[0]] + t[1..];
    } else if t != [] {
      NotEmptyEither(t, s);
    }
  }

  lemma NotEmptyEither(s: seq<string>, t: seq<string>)
    requires s != [] && forall k :: k in s <==> k in t
    ensures t != []
  {
    assert s[0] in t;
  }

  lemma InRest(s: seq<string>, k: string)
    requires Increasing(s) && s != []
    ensures k in s[1..] <==> k in s && k != s[0]
  {
    assert s == [s[0]] + s[1..];
    LessIsTotal(s[0], s[0]);
  }

  lemma FirstsAgree(s: seq<string>, t: seq<string>)
    requires Increasing(s) && Increasing(t) && s != [] && t != [] && forall k :: k in s <==> k in t
    ensures s[0] == t[0]
  {
    assert s[0] in t && t[0] in s;
    var i :| 0 <= i < |t| && t[i] == s[0];
    var j :| 0 <= j < |s| && s[j] == t[0];
    LessIsTotal(s[0], t[0]);
  }

  ghost function RuleDifferences(want: map<string, Json>, have: map<string, Json>): seq<Difference> {
    AscendingIs(want.Keys + have.Keys);
    RuleLines(Ascending(want.Keys + have.Keys), want, have)
  }

  ghost function Differences(expected: Body, enforced: Body): seq<Difference> {
    var want, have := Declared(expected), Declared(enforced);
    FieldLines(want, have, |FIELDS|) + RuleDifferences(ByType(RulesOf(want)), ByType(RulesOf(have)))
  }

  lemma {:induction false} FieldLinesAre(want: Body, have: Body, n: nat)
    requires n <= |FIELDS|
    ensures FieldLines(want, have, n) == [] <==>
            forall i :: 0 <= i < n ==> FieldOf(want, FIELDS[i]) == FieldOf(have, FIELDS[i])
    ensures forall d :: d in FieldLines(want, have, n) ==> d.OfField?
  {
    if n > 0 {
      FieldLinesAre(want, have, n - 1);
    }
  }

  /** The type a line is about. */
  function TypeOf(d: Difference): Option<string> {
    match d
    case OfField(_, _, _) => None
    case NotEnforced(t) => Some(t)
    case NotCommitted(t) => Some(t)
    case OfRule(t, _, _) => Some(t)
  }

  /** Every type that differs has exactly one line, and no other type has any. */
  ghost predicate NamesEachOnce(lines: seq<Difference>, want: map<string, Json>, have: map<string, Json>) {
    && (forall i, j :: 0 <= i < j < |lines| ==> TypeOf(lines[i]) != TypeOf(lines[j]))
    && (forall i :: 0 <= i < |lines| ==> TypeOf(lines[i]).Some?)
    && forall t :: (exists i :: 0 <= i < |lines| && TypeOf(lines[i]) == Some(t)) <==> Get(want, t) != Get(have, t)
  }

  /** The same among the first types. */
  ghost predicate NamesAmong(lines: seq<Difference>, types: seq<string>, want: map<string, Json>,
                             have: map<string, Json>) {
    && (forall i, j :: 0 <= i < j < |lines| ==> TypeOf(lines[i]) != TypeOf(lines[j]))
    && (forall i :: 0 <= i < |lines| ==> TypeOf(lines[i]).Some?)
    && forall t ::
         (exists i :: 0 <= i < |lines| && TypeOf(lines[i]) == Some(t)) <==> t in types && Get(want, t) != Get(have, t)
  }

  lemma {:induction false} RuleLinesName(types: seq<string>, want: map<string, Json>, have: map<string, Json>)
    requires Increasing(types) && forall t :: t in types ==> t in want || t in have
    ensures NamesAmong(RuleLines(types, want, have), types, want, have)
  {
    if types != [] {
      var front, last := types[..|types| - 1], types[|types| - 1];
      assert types == front + [last];
      RuleLinesName(front, want, have);
      LastIsNew(types);
      var lines, line := RuleLines(front, want, have), RuleLine(last, want, have);
      assert |line| <= 1 && forall d :: d in line ==> TypeOf(d) == Some(last);
      AppendLine(lines, line, front, last, want, have);
    }
  }

  lemma LastIsNew(types: seq<string>)
    requires Increasing(types) && types != []
    ensures types[|types| - 1] !in types[..|types| - 1] && Increasing(types[..|types| - 1])
  {
    LessIsTotal(types[|types| - 1], types[|types| - 1]);
  }

  lemma AppendLine(lines: seq<Difference>, line: seq<Difference>, front: seq<string>, last: string,
                   want: map<string, Json>, have: map<string, Json>)
    requires NamesAmong(lines, front, want, have) && last !in front
    requires line == [] <==> Get(want, last) == Get(have, last)
    requires |line| <= 1 && forall d :: d in line ==> TypeOf(d) == Some(last)
    ensures NamesAmong(lines + line, front + [last], want, have)
  {
    var all := lines + line;
    assert forall i :: 0 <= i < |lines| ==> all[i] == lines[i];
    assert line != [] ==> all[|lines|] == line[0];
    forall t
      ensures (exists i :: 0 <= i < |all| && TypeOf(all[i]) == Some(t))
              <==> t in front + [last] && Get(want, t) != Get(have, t)
    {
      if t == last {
        if line != [] {
          assert TypeOf(all[|lines|]) == Some(t);
        }
      } else if i :| 0 <= i < |lines| && TypeOf(lines[i]) == Some(t) {
        assert TypeOf(all[i]) == Some(t);
      }
    }
  }

  /** The same fields and the same rules by type. */
  predicate Agree(a: Body, b: Body) {
    (forall f :: f in FIELDS ==> FieldOf(a, f) == FieldOf(b, f)) && ByType(RulesOf(a)) == ByType(RulesOf(b))
  }

  lemma DeclaredRules(b: Body)
    ensures ByType(RulesOf(Declared(b))) == ByType(RulesOf(b))
    ensures forall f :: FieldOf(Declared(b), f) == FieldOf(b, f)
  {
    if b.rules.Some? {
      ByTypeSort(b.rules.value);
    } else {
      assert Sort([]) == [];
    }
  }

  /** A rule type is named by exactly one line when the two sides differ on it, else by none. */
  lemma EachTypeIsNamedOnce(want: map<string, Json>, have: map<string, Json>)
    ensures NamesEachOnce(RuleDifferences(want, have), want, have)
  {
    hide RuleLine, RuleLines, Ascending, Increasing;
    AscendingIs(want.Keys + have.Keys);
    RuleLinesName(Ascending(want.Keys + have.Keys), want, have);
  }

  lemma NoLinesExactly(want: map<string, Json>, have: map<string, Json>)
    ensures RuleDifferences(want, have) == [] <==> want == have
  {
    hide RuleDifferences;
    var lines := RuleDifferences(want, have);
    EachTypeIsNamedOnce(want, have);
    if want == have {
      if lines != [] {
        var named := FirstNamed(lines, want, have);
      }
    } else {
      var t := DifferingKey(want, have);
      assert exists i :: 0 <= i < |lines| && TypeOf(lines[i]) == Some(t);
    }
  }

  lemma FirstNamed(lines: seq<Difference>, want: map<string, Json>, have: map<string, Json>) returns (t: string)
    requires NamesEachOnce(lines, want, have) && lines != []
    ensures Get(want, t) != Get(have, t)
  {
    t := TypeOf(lines[0]).value;
    assert exists i :: 0 <= i < |lines| && TypeOf(lines[i]) == Some(t);
  }

  lemma DifferingKey(want: map<string, Json>, have: map<string, Json>) returns (t: string)
    requires want != have
    ensures Get(want, t) != Get(have, t)
  {
    if t0 :| t0 in want && (t0 !in have || want[t0] != have[t0]) {
      t := t0;
    } else {
      assert want.Keys <= have.Keys;
      t :| t in have && t !in want;
    }
  }

  /** No difference is reported exactly when the declared fields and the rules by type agree. */
  lemma NoDifferenceExactly(expected: Body, enforced: Body)
    ensures Differences(expected, enforced) == [] <==> Agree(expected, enforced)
  {
    hide RuleDifferences, ByType, FieldLines, FieldOf;
    assert forall i :: 0 <= i < |FIELDS| ==> FIELDS[i] in FIELDS;
    DeclaredRules(expected);
    DeclaredRules(enforced);
    NoLinesExactly(ByType(RulesOf(expected)), ByType(RulesOf(enforced)));
    FieldLinesAre(Declared(expected), Declared(enforced), |FIELDS|);
  }

  /** Rule `i` is the last of its type, and so the one that counts. */
  predicate LastOf(rules: seq<Rule>, t: string, i: nat) {
    i < |rules| && rules[i].kind == t && forall j :: i < j < |rules| ==> rules[j].kind != t
  }

  /** The last rule of this type has these parameters. */
  ghost predicate CountsFor(b: Body, t: string, p: Json) {
    b.rules.Some? &&
    exists i: nat :: LastOf(b.rules.value, t, i)
                && p == (match b.rules.value[i].parameters case None => Object(map[]) case Some(given) => given)
  }

  /** Some rule is of this type. */
  predicate HasType(b: Body, t: string) {
    b.rules.Some? && exists i :: 0 <= i < |b.rules.value| && b.rules.value[i].kind == t
  }

  lemma {:induction false} LastCounts(rules: seq<Rule>, t: string) returns (i: nat)
    ensures t in ByType(rules) <==> exists j :: 0 <= j < |rules| && rules[j].kind == t
    ensures t in ByType(rules) ==> LastOf(rules, t, i) && ByType(rules)[t] == Parameters(rules[i])
  {
    i := 0;
    if rules != [] {
      var n := |rules| - 1;
      var front := rules[..n];
      i := LastCounts(front, t);
      hide Parameters;
      if rules[n].kind == t {
        i := n;
      } else {
        assert forall j :: 0 <= j < n ==> rules[j] == front[j];
      }
    }
  }

  lemma ByTypeCounts(rules: seq<Rule>, b: Body, t: string)
    requires b.rules == Some(rules)
    ensures t in ByType(rules) <==> HasType(b, t)
    ensures t in ByType(rules) ==> forall p :: CountsFor(b, t, p) <==> p == ByType(rules)[t]
    ensures t !in ByType(rules) ==> forall p :: !CountsFor(b, t, p)
  {
    var last := LastCounts(rules, t);
    hide ByType;
    assert forall i: nat :: LastOf(rules, t, i) && LastOf(rules, t, last) ==> i == last;
  }

  lemma CountsIn(b: Body, t: string)
    ensures t in ByType(RulesOf(b)) <==> HasType(b, t)
    ensures t in ByType(RulesOf(b)) ==> forall p :: CountsFor(b, t, p) <==> p == ByType(RulesOf(b))[t]
    ensures t !in ByType(RulesOf(b)) ==> forall p :: !CountsFor(b, t, p)
  {
    if b.rules.Some? {
      ByTypeCounts(b.rules.value, b, t);
    }
  }

  lemma {:induction false} FieldLinesSay(want: Body, have: Body, n: nat, d: Difference)
    requires n <= |FIELDS|
    ensures d in FieldLines(want, have, n) <==>
            d.OfField? && d.want == FieldOf(want, d.field) && d.have == FieldOf(have, d.field) && d.want != d.have
            && exists i :: 0 <= i < n && FIELDS[i] == d.field
  {
    if n > 0 {
      FieldLinesSay(want, have, n - 1, d);
    }
  }

  lemma {:induction false} RuleLinesSay(types: seq<string>, want: map<string, Json>, have: map<string, Json>,
                                        d: Difference)
    requires forall t :: t in types ==> t in want || t in have
    ensures d in RuleLines(types, want, have) <==> !d.OfField? && d.kind in types && d in RuleLine(d.kind, want, have)
  {
    if types != [] {
      var front, last := types[..|types| - 1], types[|types| - 1];
      assert types == front + [last];
      RuleLinesSay(front, want, have, d);
    }
  }

  /**
   * What the report says: a field's line carries the committed value and then the enforced one, where
   * they differ; a type is not enforced if only the committed side has a rule of it, and not committed
   * if only the enforced side has; and a rule's line carries the parameters of the rules that count.
   */
  lemma ReportSays(expected: Body, enforced: Body, f: Field, t: string, w: Json, h: Json)
    ensures var report := Differences(expected, enforced);
            && (OfField(f, w, h) in report <==>
                  w != h && w == (if f in expected.fields then expected.fields[f] else Null)
                  && h == (if f in enforced.fields then enforced.fields[f] else Null))
            && (NotEnforced(t) in report <==> HasType(expected, t) && !HasType(enforced, t))
            && (NotCommitted(t) in report <==> !HasType(expected, t) && HasType(enforced, t))
            && (OfRule(t, w, h) in report <==> w != h && CountsFor(expected, t, w) && CountsFor(enforced, t, h))
  {
    hide ByType, FieldLines, RuleLines, Ascending, CountsFor, HasType;
    DeclaredRules(expected);
    DeclaredRules(enforced);
    CountsIn(expected, t);
    CountsIn(enforced, t);
    var want, have := ByType(RulesOf(expected)), ByType(RulesOf(enforced));
    AscendingIs(want.Keys + have.Keys);
    var d := OfField(f, w, h);
    assert FIELDS[0] == Name && FIELDS[1] == Target && FIELDS[2] == Enforcement && FIELDS[3] == Conditions;
    FieldLinesSay(Declared(expected), Declared(enforced), |FIELDS|, d);
    RuleLinesSay(Ascending(want.Keys + have.Keys), want, have, d);
    SaysOfType(expected, enforced, t, NotEnforced(t));
    SaysOfType(expected, enforced, t, NotCommitted(t));
    SaysOfType(expected, enforced, t, OfRule(t, w, h));
  }

  lemma SaysOfType(expected: Body, enforced: Body, t: string, d: Difference)
    requires !d.OfField? && d.kind == t
    ensures var want, have := ByType(RulesOf(expected)), ByType(RulesOf(enforced));
            d in Differences(expected, enforced) <==> (t in want || t in have) && d in RuleLine(t, want, have)
  {
    hide ByType, FieldLines, RuleLines, Ascending, RuleLine;
    DeclaredRules(expected);
    DeclaredRules(enforced);
    var want, have := ByType(RulesOf(expected)), ByType(RulesOf(enforced));
    AscendingIs(want.Keys + have.Keys);
    FieldLinesSay(Declared(expected), Declared(enforced), |FIELDS|, d);
    RuleLinesSay(Ascending(want.Keys + have.Keys), want, have, d);
  }

  /** Rules of distinct types may be listed in any order: the report is the same. */
  lemma OrderDoesNotMatter(expected: Body, enforced: Body, other: Body)
    requires expected.fields == other.fields && expected.rules.Some? && other.rules.Some?
    requires multiset(expected.rules.value) == multiset(other.rules.value)
    requires DistinctTypes(expected.rules.value) && DistinctTypes(other.rules.value)
    ensures Differences(expected, enforced) == Differences(other, enforced)
    ensures Differences(enforced, expected) == Differences(enforced, other)
  {
    hide RuleDifferences, ByType;
    DeclaredRules(expected);
    DeclaredRules(other);
    ByTypeForgetsOrder(expected.rules.value, other.rules.value);
    SameFields(Declared(expected), Declared(other), Declared(enforced), |FIELDS|);
  }

  lemma {:induction false} SameFields(a: Body, b: Body, c: Body, n: nat)
    requires a.fields == b.fields && n <= |FIELDS|
    ensures FieldLines(a, c, n) == FieldLines(b, c, n) && FieldLines(c, a, n) == FieldLines(c, b, n)
  {
    if n > 0 {
      SameFields(a, b, c, n - 1);
    }
  }

  // ---------------------------------------------------------- commands

  function Place(t: string, s: seq<string>): seq<string> {
    if s == [] then [t]
    else if Less(t, s[0]) then [t] + s
    else [s[0]] + Place(t, s[1..])
  }

  lemma {:induction false} PlaceKeepsIncreasing(t: string, s: seq<string>)
    requires Increasing(s) && t !in s
    ensures Increasing(Place(t, s)) && forall u :: u in Place(t, s) <==> u == t || u in s
  {
    hide Less;
    if s != [] {
      assert s == [s[0]] + s[1..];
      LessIsTotal(t, s[0]);
      if Less(t, s[0]) {
        forall i | 0 <= i < |s|
          ensures Less(t, s[i])
        {
          FirstIsBelow(t, s, i);
        }
      } else {
        PlaceKeepsIncreasing(t, s[1..]);
        forall u | u in Place(t, s[1..])
          ensures Less(s[0], u)
        {
        }
      }
    }
  }

  lemma FirstIsBelow(t: string, s: seq<string>, i: nat)
    requires Increasing(s) && i < |s| && Less(t, s[0])
    ensures Less(t, s[i])
  {
    if i > 0 {
      LessIsTotal(s[0], s[i]);
      LessIsTransitive(t, s[0], s[i]);
    }
  }

  method SortedTypes(types: set<string>) returns (s: seq<string>)
    ensures s == Ascending(types)
  {
    s := [];
    var rest := types;
    while rest != {}
      invariant rest <= types && Increasing(s) && forall t :: t in s <==> t in types && t !in rest
      decreases |rest|
    {
      var t: string :| t in rest;
      PlaceKeepsIncreasing(t, s);
      s := Place(t, s);
      rest := rest - {t};
    }
    AscendingIs(types);
    IncreasingUnique(s, Ascending(types));
  }

  /** `differences`: the fields one by one, then the rules one type at a time. */
  method FindDifferences(expected: Body, enforced: Body) returns (found: seq<Difference>)
    ensures found == Differences(expected, enforced)
  {
    hide Ascending, ByType, Sort, RuleLine;
    var wantAll, haveAll := Declared(expected), Declared(enforced);
    found := [];
    for i := 0 to |FIELDS|
      invariant found == FieldLines(wantAll, haveAll, i)
    {
      var w, h := FieldOf(wantAll, FIELDS[i]), FieldOf(haveAll, FIELDS[i]);
      if w != h {
        found := found + [OfField(FIELDS[i], w, h)];
      }
    }
    var want, have := ByType(RulesOf(wantAll)), ByType(RulesOf(haveAll));
    AscendingIs(want.Keys + have.Keys);
    var types := SortedTypes(want.Keys + have.Keys);
    ghost var fields := found;
    for i := 0 to |types|
      invariant forall t :: t in types[..i] ==> t in want || t in have
      invariant found == fields + RuleLines(types[..i], want, have)
    {
      assert types[..i + 1][..i] == types[..i] && types[i] in types;
      found := found + RuleLine(types[i], want, have);
    }
    assert types[..|types|] == types;
  }

  datatype File = Missing | Garbled | Parsed(body: Body)

  /** `load_file` succeeds. */
  predicate Loads(f: File) {
    f.Parsed? && Complete(f.body)
  }

  predicate Named(b: Body, name: Json) {
    Get(b.fields, Name) == Some(name)
  }

  /** `fetch`: the first enforced ruleset with this name. */
  function Fetch(remote: seq<Body>, name: Json): (i: Option<nat>)
    ensures i.Some? ==> i.value < |remote| && Named(remote[i.value], name)
    ensures i.Some? ==> forall j :: 0 <= j < i.value ==> !Named(remote[j], name)
    ensures i.None? ==> forall j :: 0 <= j < |remote| ==> !Named(remote[j], name)
  {
    if remote == [] then None else
      var front := Fetch(remote[..|remote| - 1], name);
      if front.Some? then front
      else if Named(remote[|remote| - 1], name) then Some(|remote| - 1) else None
  }

  /** The enforced ruleset a name stands for: the first of that name. */
  predicate Enforced(remote: seq<Body>, name: Json, i: nat) {
    i < |remote| && Named(remote[i], name) && forall j :: 0 <= j < i ==> !Named(remote[j], name)
  }

  /** The file loads, a ruleset of its name is enforced, and the declared fields agree. */
  ghost predicate InAgreement(f: File, remote: seq<Body>) {
    Loads(f) && exists i: nat :: Enforced(remote, f.body.fields[Name], i) && Agree(f.body, remote[i])
  }

  /** The list is hidden from the token, or empty. */
  predicate NobodyBypasses(b: Body, visible: bool) {
    !visible || b.bypassActors.None? || b.bypassActors.value == []
  }

  /** The declared part of a ruleset and nothing else, its rules all there and in order of their types. */
  ghost predicate Restated(copy: Body, b: Body) {
    && copy.fields == b.fields && copy.bypassActors == None && copy.extra == map[]
    && (copy.rules.Some? <==> b.rules.Some?)
    && (b.rules.Some? ==>
          SortedRules(copy.rules.value) && multiset(copy.rules.value) == multiset(b.rules.value))
  }

  lemma DeclaredRestates(b: Body)
    ensures Restated(Declared(b), b)
  {
    if b.rules.Some? {
      SortSorts(b.rules.value);
    }
  }

  lemma FourFields(f: File)
    ensures Loads(f) <==> f.Parsed? && f.body.rules.Some? && forall g: Field :: g in f.body.fields
  {
    forall g: Field
      ensures g in FIELDS
    {
      match g
      case Name => assert FIELDS[0] == g;
      case Target => assert FIELDS[1] == g;
      case Enforcement => assert FIELDS[2] == g;
      case Conditions => assert FIELDS[3] == g;
    }
  }

  /** The committed file and GitHub's rulesets; anything may have happened to both before a command. */
  class Repository {
    var file: File
    var remote: seq<Body>

    constructor (file: File, remote: seq<Body>)
      ensures this.file == file && this.remote == remote
    {
      this.file, this.remote := file, remote;
    }

    /** 2 for a file that does not load, 0 exactly for agreement without bypass actors, 1 otherwise. */
    method Check(visible: bool) returns (code: nat)
      ensures code <= 2 && (code == 2 <==> !Loads(file))
      ensures code != 2 <==> file.Parsed? && file.body.rules.Some? && forall f: Field :: f in file.body.fields
      ensures code == 0 <==>
              InAgreement(file, remote)
              && forall i: nat :: Enforced(remote, file.body.fields[Name], i) ==>
                   visible ==> remote[i].bypassActors in {None, Some([])}
    {
      hide Differences, Agree;
      FourFields(file);
      if !Loads(file) {
        return 2;
      }
      var i := Fetch(remote, file.body.fields[Name]);
      if i.None? {
        return 1;
      }
      assert forall j: nat :: Enforced(remote, file.body.fields[Name], j) <==> j == i.value;
      var found := FindDifferences(file.body, remote[i.value]);
      NoDifferenceExactly(file.body, remote[i.value]);
      return if found == [] && NobodyBypasses(remote[i.value], visible) then 0 else 1;
    }

    /** Pushes the file and checks: whatever was enforced before, the check passes. */
    method Apply(visible: bool) returns (code: nat)
      modifies this`remote
      ensures Loads(file) ==> InAgreement(file, remote) && code == 0
      ensures Loads(file) ==>
                forall i: nat :: Enforced(remote, file.body.fields[Name], i) ==>
                  remote[i].bypassActors == Some([])
                  && remote[i].extra == (if i < |old(remote)| then old(remote)[i].extra else map[])
                  && Restated(remote[i].(bypassActors := None, extra := map[]), file.body)
      ensures Loads(file) ==>
                var i := Fetch(old(remote), file.body.fields[Name]);
                if i.Some?
                then |remote| == |old(remote)|
                     && forall j :: 0 <= j < |remote| && j != i.value ==> remote[j] == old(remote)[j]
                else |remote| == |old(remote)| + 1 && remote[..|old(remote)|] == old(remote)
      ensures !Loads(file) ==> remote == old(remote) && code == 2
    {
      hide Agree;
      if !Loads(file) {
        return 2;
      }
      var name, body := file.body.fields[Name], Declared(file.body).(bypassActors := Some([]));
      DeclaredRestates(file.body);
      var i := Fetch(remote, name);
      if i.None? {
        remote := remote + [body];
      } else {
        remote := remote[i.value := body.(extra := remote[i.value].extra)];
      }
      var k := Fetch(remote, name);
      var at := if i.None? then |remote| - 1 else i.value;
      assert Named(remote[at], name);
      assert k == Some(at);
      assert forall j: nat :: Enforced(remote, name, j) <==> j == at;
      DeclaredAgrees(file.body, remote[at]);
      code := Check(visible);
    }

    /**
     * Refreshes the file from GitHub: it restates what is enforced, and agrees with it unless a
     * declared field is missing there; then the written file does not load.
     */
    method Export() returns (code: nat)
      modifies this`file
      ensures !Loads(old(file)) ==> file == old(file) && code == 2
      ensures Loads(old(file)) ==>
                var i := Fetch(remote, old(file).body.fields[Name]);
                if i.None? then file == old(file) && code == 1
                else code == 0 && file.Parsed? && Restated(file.body, remote[i.value])
                     && (InAgreement(file, remote) <==> Complete(remote[i.value]))
    {
      hide Agree;
      if !Loads(file) {
        return 2;
      }
      var i := Fetch(remote, file.body.fields[Name]);
      if i.None? {
        return 1;
      }
      assert forall j: nat :: Enforced(remote, file.body.fields[Name], j) <==> j == i.value;
      DeclaredAgrees(remote[i.value], remote[i.value]);
      DeclaredRestates(remote[i.value]);
      file := Parsed(Declared(remote[i.value]));
      return 0;
    }
  }

  /** A ruleset and what is declared of it differ in nothing, whatever else the copy carries. */
  lemma DeclaredAgrees(b: Body, copy: Body)
    requires copy.fields == b.fields && (copy.rules == Declared(b).rules || copy.rules == b.rules)
    ensures Agree(b, copy) && Agree(Declared(b), copy)
  {
    hide Differences, ByType, Sort;
    DeclaredRules(b);
    NoDifferenceExactly(b, copy);
    NoDifferenceExactly(Declared(b), copy);
  }
}

/**
 * The WHERE compiler of the SQL adapter: comparator templates, the parsed
 * filter entries, the AND clause (which folds joined-table filters into
 * `(SELECT … LIMIT 1) IS NOT NULL` subqueries), the OR clause (which numbers
 * the `__VAR__` tokens from a running offset), the parameter list, and the
 * LEFT JOIN builder that threads the same offset through its join filters.
 */
module SqlWhere {
  import opened Wrappers
  import opened Strings
  import opened Values
  import opened Fragments
  import opened SqlAdapter

  datatype Comparator =
    | Is | Not | Lt | Lte | Gt | Gte
    | Contains | IContains | StartsWith | IStartsWith | EndsWith | IEndsWith
    | Like | ILike
    | IsNull | IsTrue | IsFalse | NotNull | NotTrue | NotFalse
    | In | NotIn

  const AllComparators: seq<Comparator> :=
    [Is, Not, Lt, Lte, Gt, Gte, Contains, IContains, StartsWith, IStartsWith, EndsWith, IEndsWith,
     Like, ILike, IsNull, IsTrue, IsFalse, NotNull, NotTrue, NotFalse, In, NotIn]

  /** The key of the comparator in the adapter's `comparators` table. */
  function ComparatorName(c: Comparator): string
  {
    match c
    case Is => "is"
    case Not => "not"
    case Lt => "lt"
    case Lte => "lte"
    case Gt => "gt"
    case Gte => "gte"
    case Contains => "contains"
    case IContains => "icontains"
    case StartsWith => "startswith"
    case IStartsWith => "istartswith"
    case EndsWith => "endswith"
    case IEndsWith => "iendswith"
    case Like => "like"
    case ILike => "ilike"
    case IsNull => "is_null"
    case IsTrue => "is_true"
    case IsFalse => "is_false"
    case NotNull => "not_null"
    case NotTrue => "not_true"
    case NotFalse => "not_false"
    case In => "in"
    case NotIn => "not_in"
  }

  function FindComparator(name: string, cs: seq<Comparator>): (r: Option<Comparator>)
    ensures r.Some? ==> r.value in cs && ComparatorName(r.value) == name
    ensures r.None? ==> forall c :: c in cs ==> ComparatorName(c) != name
  {
    if |cs| == 0 then None
    else if ComparatorName(cs[0]) == name then Some(cs[0])
    else FindComparator(name, cs[1..])
  }

  /** Looking a name up in the `comparators` table (`None`: no such comparator). */
  function ComparatorNamed(name: string): (r: Option<Comparator>)
    ensures r.Some? ==> ComparatorName(r.value) == name
  {
    FindComparator(name, AllComparators)
  }

  lemma {:induction false} AllComparatorsListed(c: Comparator)
    ensures c in AllComparators
  {
    match c
    case Is => assert AllComparators[0] == c;
    case Not => assert AllComparators[1] == c;
    case Lt => assert AllComparators[2] == c;
    case Lte => assert AllComparators[3] == c;
    case Gt => assert AllComparators[4] == c;
    case Gte => assert AllComparators[5] == c;
    case Contains => assert AllComparators[6] == c;
    case IContains => assert AllComparators[7] == c;
    case StartsWith => assert AllComparators[8] == c;
    case IStartsWith => assert AllComparators[9] == c;
    case EndsWith => assert AllComparators[10] == c;
    case IEndsWith => assert AllComparators[11] == c;
    case Like => assert AllComparators[12] == c;
    case ILike => assert AllComparators[13] == c;
    case IsNull => assert AllComparators[14] == c;
    case IsTrue => assert AllComparators[15] == c;
    case IsFalse => assert AllComparators[16] == c;
    case NotNull => assert AllComparators[17] == c;
    case NotTrue => assert AllComparators[18] == c;
    case NotFalse => assert AllComparators[19] == c;
    case In => assert AllComparators[20] == c;
    case NotIn => assert AllComparators[21] == c;
  }

  /** Every comparator is found under its own name: names and comparators correspond one to one. */
  lemma {:induction false} ComparatorNameRoundTrip(c: Comparator)
    ensures ComparatorNamed(ComparatorName(c)) == Some(c)
  {
    AllComparatorsListed(c);
    var r := ComparatorNamed(ComparatorName(c));
    assert r.Some?;
    ComparatorNameInjective(r.value, c);
  }

  lemma {:induction false} ComparatorNameInjective(a: Comparator, b: Comparator)
    requires ComparatorName(a) == ComparatorName(b)
    ensures a == b
  {
  }

  /** `comparatorIgnoresValue`: the six IS-tests take no value. */
  predicate IgnoresValue(c: Comparator)
  {
    c == IsNull || c == IsTrue || c == IsFalse || c == NotNull || c == NotTrue || c == NotFalse
  }

  /** The comparator's SQL template applied to a field reference. */
  function Template(c: Comparator, field: string): (r: Sql)
    ensures Unnumbered(r)
  {
    match c
    case Is => [Text(field + " = "), Var]
    case Not => [Text(field + " <> "), Var]
    case Lt => [Text(field + " < "), Var]
    case Lte => [Text(field + " <= "), Var]
    case Gt => [Text(field + " > "), Var]
    case Gte => [Text(field + " >= "), Var]
    case Contains => [Text(field + " LIKE '%' || "), Var, Text(" || '%'")]
    case IContains => [Text(field + " ILIKE '%' || "), Var, Text(" || '%'")]
    case StartsWith => [Text(field + " LIKE "), Var, Text(" || '%'")]
    case IStartsWith => [Text(field + " ILIKE "), Var, Text(" || '%'")]
    case EndsWith => [Text(field + " LIKE '%' || "), Var]
    case IEndsWith => [Text(field + " ILIKE '%' || "), Var]
    case Like => [Text(field + " LIKE "), Var]
    case ILike => [Text(field + " ILIKE "), Var]
    case IsNull => [Text(field + " IS NULL")]
    case IsTrue => [Text(field + " IS TRUE")]
    case IsFalse => [Text(field + " IS FALSE")]
    case NotNull => [Text(field + " IS NOT NULL")]
    case NotTrue => [Text(field + " IS NOT TRUE")]
    case NotFalse => [Text(field + " IS NOT FALSE")]
    case In => [Text("ARRAY[" + field + "] <@ "), Var]
    case NotIn => [Text("NOT (ARRAY[" + field + "] <@ "), Var, Text(")")]
  }

  /** A value-taking template has exactly one token; the six IS-tests have none. */
  lemma {:induction false} TemplateTokens(c: Comparator, field: string)
    ensures VarCount(Template(c, field)) == if IgnoresValue(c) then 0 else 1
  {
    var t := Template(c, field);
    assert |t| <= 3;
    if |t| >= 1 { assert t[1..][..] == t[1..]; }
    VarCountSmall(t);
  }

  /** A joined-table step of a filter: `{joinTable, joinAlias, joinColumn, prevTable, prevColumn}`. */
  datatype SubJoin = SubJoin(joinTable: string, joinAlias: string, joinColumn: string, prevTable: string, prevColumn: string)

  /**
   * A filter entry as the query builder hands it over. A blank `table` is a
   * falsy one; `valueFunction`, when present, computes SQL text from the
   * escaped `valueColumnNames`.
   */
  datatype WhereObj = WhereObj(
    table: string, alias: string, columnName: string, comparator: Comparator, value: Val,
    valueFunction: Option<seq<string> -> string>, valueColumnNames: seq<string>,
    joined: bool, joins: seq<SubJoin>)

  /** A filter entry after `parseWhereObj`. */
  datatype Filter = Filter(
    table: string, alias: string, columnName: string, refName: string, comparator: Comparator,
    value: Val, sanitize: bool, ignoreValue: bool, joined: bool, joins: seq<SubJoin>)

  /** The entry's `ignoreValue` flag agrees with its comparator, as `parseWhereObj` sets it. */
  predicate WellFormed(f: Filter)
  {
    f.ignoreValue == IgnoresValue(f.comparator)
  }

  function QualifiedAll(quote: string, table: string, columns: seq<string>): (r: seq<string>)
    ensures |r| == |columns|
  {
    if |columns| == 0 then [] else [Qualified(quote, table, columns[0])] + QualifiedAll(quote, table, columns[1..])
  }

  /** `parseWhereObj` on one entry. */
  function ParseWhere(quote: string, table: string, w: WhereObj): (f: Filter)
    ensures WellFormed(f)
    ensures f.sanitize <==> w.valueFunction.None?
    ensures f.sanitize ==> f.value == w.value
    ensures f.refName == Qualified(quote, if w.table != "" then w.table else table, w.columnName)
    ensures f.comparator == w.comparator && f.joined == w.joined && f.joins == w.joins && f.alias == w.alias
  {
    var t := if w.table != "" then w.table else table;
    Filter(w.table, w.alias, w.columnName, Qualified(quote, t, w.columnName), w.comparator,
           match w.valueFunction
           case Some(fn) => Str(fn(QualifiedAll(quote, t, w.valueColumnNames)))
           case None => w.value,
           w.valueFunction.None?, IgnoresValue(w.comparator), w.joined, w.joins)
  }

  function ParseWhereObj(quote: string, table: string, ws: seq<WhereObj>): (r: seq<Filter>)
    ensures |r| == |ws|
    ensures forall i :: 0 <= i < |ws| ==> r[i] == ParseWhere(quote, table, ws[i])
  {
    if |ws| == 0 then [] else [ParseWhere(quote, table, ws[0])] + ParseWhereObj(quote, table, ws[1..])
  }

  /** `createMultiFilter`: drops absent groups, keeps the order of the rest and parses each. */
  function CreateMultiFilter(quote: string, table: string, groups: seq<Option<seq<WhereObj>>>): (r: seq<seq<Filter>>)
    ensures |r| <= |groups|
    ensures forall i :: 0 <= i < |r| ==> forall f :: f in r[i] ==> WellFormed(f)
  {
    if |groups| == 0 then []
    else
      (match groups[0]
       case Some(g) => [ParseWhereObj(quote, table, g)]
       case None => []) + CreateMultiFilter(quote, table, groups[1..])
  }

  lemma {:induction false} CreateMultiFilterAppend(quote: string, table: string, a: seq<Option<seq<WhereObj>>>, b: seq<Option<seq<WhereObj>>>)
    ensures CreateMultiFilter(quote, table, a + b) == CreateMultiFilter(quote, table, a) + CreateMultiFilter(quote, table, b)
  {
    if |a| == 0 {
      assert a + b == b;
    } else {
      assert (a + b)[1..] == a[1..] + b;
      CreateMultiFilterAppend(quote, table, a[1..], b);
    }
  }

  /** Present groups survive in order and absent ones vanish. */
  lemma {:induction false} CreateMultiFilterKeeps(quote: string, table: string, g: seq<WhereObj>, rest: seq<Option<seq<WhereObj>>>)
    ensures CreateMultiFilter(quote, table, [Some(g)] + rest) == [ParseWhereObj(quote, table, g)] + CreateMultiFilter(quote, table, rest)
    ensures CreateMultiFilter(quote, table, [None] + rest) == CreateMultiFilter(quote, table, rest)
  {
    assert ([Some(g)] + rest)[1..] == rest;
    assert ([None] + rest)[1..] == rest;
  }

  predicate Unnumbered(q: Sql)
  {
    forall i :: 0 <= i < |q| ==> !q[i].Param?
  }

  lemma {:induction false} UnnumberedPlaceholders(q: Sql)
    requires Unnumbered(q)
    ensures Placeholders(q) == []
  {
    if |q| > 0 {
      UnnumberedPlaceholders(q[1..]);
    }
  }

  lemma {:induction false} UnnumberedJoin(parts: seq<Sql>, sep: string)
    requires forall i :: 0 <= i < |parts| ==> Unnumbered(parts[i])
    ensures Unnumbered(JoinSql(parts, sep))
  {
    if |parts| > 1 {
      UnnumberedJoin(parts[1..], sep);
    }
  }

  /** The clause an entry contributes: its template, with the text inlined when it is not sanitised. */
  function ClauseOf(f: Filter): (r: Sql)
    ensures Unnumbered(r)
  {
    var t := Template(f.comparator, f.refName);
    if f.sanitize then t else Inline(t, ToStr(f.value))
  }

  /** The number of parameters an entry binds. */
  function Binds(f: Filter): nat
  {
    if f.sanitize && !f.ignoreValue then 1 else 0
  }

  /** A sanitised value-taking entry leaves one token; inlined and IS-test entries leave none. */
  lemma {:induction false} ClauseTokens(f: Filter)
    requires WellFormed(f)
    ensures VarCount(ClauseOf(f)) == Binds(f)
  {
    TemplateTokens(f.comparator, f.refName);
  }

  /** A joined-table group: `{table, joins, clauses}`. */
  datatype Group = Group(table: string, joins: seq<SubJoin>, clauses: seq<Sql>)

  /**
   * The state of the AND loop: `slots` is `clauses` (with `None` for the
   * placeholder pushed at a group's first entry), `groups` is
   * `joinedClauses` and `index` is `joinedTables`.
   */
  datatype Collected = Collected(slots: seq<Option<Sql>>, groups: seq<Group>, index: map<string, nat>)

  function NoneCount(slots: seq<Option<Sql>>): nat
  {
    if |slots| == 0 then 0 else (if slots[0].None? then 1 else 0) + NoneCount(slots[1..])
  }

  lemma {:induction false} NoneCountAppend(a: seq<Option<Sql>>, b: seq<Option<Sql>>)
    ensures NoneCount(a + b) == NoneCount(a) + NoneCount(b)
  {
    if |a| == 0 {
      assert a + b == b;
    } else {
      assert (a + b)[1..] == a[1..] + b;
      NoneCountAppend(a[1..], b);
    }
  }

  predicate GroupUnnumbered(g: Group)
  {
    forall i :: 0 <= i < |g.clauses| ==> Unnumbered(g.clauses[i])
  }

  predicate CollectedValid(c: Collected)
  {
    (forall a :: a in c.index ==> c.index[a] < |c.groups|) &&
    NoneCount(c.slots) == |c.groups| &&
    (forall i :: 0 <= i < |c.slots| && c.slots[i].Some? ==> Unnumbered(c.slots[i].value)) &&
    (forall k :: 0 <= k < |c.groups| ==> GroupUnnumbered(c.groups[k]))
  }

  /** The AND loop over the first entries, one entry at a time. */
  function Collect(fs: seq<Filter>): (c: Collected)
    ensures CollectedValid(c)
  {
    if |fs| == 0 then Collected([], [], map[])
    else
      var c := Collect(fs[..|fs| - 1]);
      var f := fs[|fs| - 1];
      var clause := ClauseOf(f);
      if !f.joined then
        NoneCountAppend(c.slots, [Some(clause)]);
        Collected(c.slots + [Some(clause)], c.groups, c.index)
      else if f.alias in c.index then
        var k := c.index[f.alias];
        Collected(c.slots, c.groups[k := c.groups[k].(clauses := c.groups[k].clauses + [clause])], c.index)
      else
        NoneCountAppend(c.slots, [None]);
        Collected(c.slots + [None], c.groups + [Group(f.table, f.joins, [clause])], c.index[f.alias := |c.groups|])
  }

  /** `clauses.map(c => c || joinedClauses.shift())`. */
  function Fill(slots: seq<Option<Sql>>, subs: seq<Sql>): (r: seq<Sql>)
    requires NoneCount(slots) == |subs|
    ensures |r| == |slots|
  {
    if |slots| == 0 then []
    else
      match slots[0]
      case Some(c) => [c] + Fill(slots[1..], subs)
      case None => [subs[0]] + Fill(slots[1..], subs[1..])
  }

  /** `INNER JOIN jt AS ja ON ja.jc = prev.pc` for one join step. */
  function StepText(quote: string, table: string, j: SubJoin): string
  {
    "INNER JOIN " + EscapeField(quote, j.joinTable) + " AS " + EscapeField(quote, j.joinAlias) + " ON " +
    Qualified(quote, j.joinAlias, j.joinColumn) + " = " +
    Qualified(quote, if j.prevTable != "" then j.prevTable else table, j.prevColumn)
  }

  /** The INNER JOIN text of step `k`; the last step also carries the group's clauses. */
  function StepPiece(quote: string, table: string, g: Group, k: nat): (r: Sql)
    requires k < |g.joins| && GroupUnnumbered(g)
    ensures Unnumbered(r)
    ensures VarCount(r) == if k == |g.joins| - 1 then SumVarCounts(g.clauses) else 0
  {
    var j := g.joins[k];
    var step := T(StepText(quote, table, j));
    if k == |g.joins| - 1 then
      var mid := T(" AND " + Qualified(quote, j.joinAlias, j.joinColumn) + " = " + Qualified(quote, g.table, j.joinColumn) + " AND (");
      var body := JoinSql(g.clauses, " AND ");
      UnnumberedJoin(g.clauses, " AND ");
      VarCountJoin(g.clauses, " AND ");
      LiteralAround(step + mid, body, T(") "));
      step + mid + body + T(") ")
    else step
  }

  /** Literal text on both sides adds no tokens and no parameters. */
  lemma {:induction false} LiteralAround(a: Sql, b: Sql, c: Sql)
    requires Unnumbered(a) && VarCount(a) == 0 && Unnumbered(c) && VarCount(c) == 0 && Unnumbered(b)
    ensures Unnumbered(a + b + c) && VarCount(a + b + c) == VarCount(b)
  {
    VarCountAppend(a, b);
    VarCountAppend(a + b, c);
    UnnumberedAppend(a, b);
    UnnumberedAppend(a + b, c);
  }

  lemma {:induction false} UnnumberedAppend(a: Sql, b: Sql)
    requires Unnumbered(a) && Unnumbered(b)
    ensures Unnumbered(a + b)
  {
    forall i | 0 <= i < |a + b| ensures !(a + b)[i].Param? {
      if i < |a| {
        assert (a + b)[i] == a[i];
      } else {
        assert (a + b)[i] == b[i - |a|];
      }
    }
  }

  /** The pieces of steps `from …` of a subquery's join chain. */
  function SubJoinPieces(quote: string, table: string, g: Group, from: nat): (r: seq<Sql>)
    requires from <= |g.joins| && GroupUnnumbered(g)
    ensures |r| == |g.joins| - from
    ensures forall i :: 0 <= i < |r| ==> r[i] == StepPiece(quote, table, g, from + i)
    decreases |g.joins| - from
  {
    if from == |g.joins| then [] else [StepPiece(quote, table, g, from)] + SubJoinPieces(quote, table, g, from + 1)
  }

  lemma {:induction false} SumOnlyLast(parts: seq<Sql>)
    requires forall i :: 0 <= i < |parts| - 1 ==> VarCount(parts[i]) == 0
    ensures SumVarCounts(parts) == if |parts| == 0 then 0 else VarCount(parts[|parts| - 1])
  {
    if |parts| > 1 {
      SumOnlyLast(parts[1..]);
      assert parts[1..][|parts| - 2] == parts[|parts| - 1];
    }
  }

  /**
   * `(SELECT t.id FROM t INNER JOIN … LIMIT 1) IS NOT NULL` for a joined
   * group. With no join steps the group's clauses never appear.
   */
  function Subquery(quote: string, table: string, g: Group): (r: Sql)
    requires GroupUnnumbered(g)
    ensures Unnumbered(r)
    ensures VarCount(r) == if |g.joins| > 0 then SumVarCounts(g.clauses) else 0
  {
    var head := T("(SELECT " + Qualified(quote, g.table, "id") + " FROM " + EscapeField(quote, g.table) + " ");
    var pieces := SubJoinPieces(quote, table, g, 0);
    var body := JoinSql(pieces, " ");
    UnnumberedJoin(pieces, " ");
    VarCountJoin(pieces, " ");
    SumOnlyLast(pieces);
    LiteralAround(head, body, T("LIMIT 1) IS NOT NULL"));
    head + body + T("LIMIT 1) IS NOT NULL")
  }

  function Subqueries(quote: string, table: string, gs: seq<Group>): (r: seq<Sql>)
    requires forall k :: 0 <= k < |gs| ==> GroupUnnumbered(gs[k])
    ensures |r| == |gs|
    ensures forall k :: 0 <= k < |gs| ==> r[k] == Subquery(quote, table, gs[k])
  {
    if |gs| == 0 then [] else [Subquery(quote, table, gs[0])] + Subqueries(quote, table, gs[1..])
  }

  /** The AND clause of one group of entries, as a function of the entries. */
  function AndSpec(quote: string, table: string, fs: seq<Filter>): Sql
  {
    if |fs| == 0 then []
    else
      var c := Collect(fs);
      JoinSql(Fill(c.slots, Subqueries(quote, table, c.groups)), " AND ")
  }

  /** The AND clause holds no numbered parameter yet. */
  lemma {:induction false} AndSpecUnnumbered(quote: string, table: string, fs: seq<Filter>)
    ensures Unnumbered(AndSpec(quote, table, fs))
  {
    if |fs| > 0 {
      var c := Collect(fs);
      var parts := Fill(c.slots, Subqueries(quote, table, c.groups));
      FillUnnumbered(c.slots, Subqueries(quote, table, c.groups));
      UnnumberedJoin(parts, " AND ");
    }
  }

  lemma {:induction false} FillUnnumbered(slots: seq<Option<Sql>>, subs: seq<Sql>)
    requires NoneCount(slots) == |subs|
    requires forall i :: 0 <= i < |slots| && slots[i].Some? ==> Unnumbered(slots[i].value)
    requires forall i :: 0 <= i < |subs| ==> Unnumbered(subs[i])
    ensures forall i :: 0 <= i < |slots| ==> Unnumbered(Fill(slots, subs)[i])
  {
    if |slots| > 0 {
      match slots[0]
      case Some(c) =>
        FillUnnumbered(slots[1..], subs);
      case None =>
        FillUnnumbered(slots[1..], subs[1..]);
    }
  }

  /** The first loop of `generateAndClause`: sorts the entries into plain clauses and joined groups. */
  method CollectClauses(fs: seq<Filter>) returns (clauses: seq<Option<Sql>>, joinedClauses: seq<Group>, joinedTables: map<string, nat>)
    ensures Collected(clauses, joinedClauses, joinedTables) == Collect(fs)
  {
    clauses := [];
    joinedTables := map[];
    joinedClauses := [];
    var i := 0;
    while i < |fs|
      invariant 0 <= i <= |fs|
      invariant Collect(fs[..i]) == Collected(clauses, joinedClauses, joinedTables)
    {
      var f := fs[i];
      assert fs[..i + 1][..i] == fs[..i];
      var clause := ClauseOf(f);
      if !f.joined {
        clauses := clauses + [Some(clause)];
      } else if f.alias in joinedTables {
        var k := joinedTables[f.alias];
        joinedClauses := joinedClauses[k := joinedClauses[k].(clauses := joinedClauses[k].clauses + [clause])];
      } else {
        joinedTables := joinedTables[f.alias := |joinedClauses|];
        joinedClauses := joinedClauses + [Group(f.table, f.joins, [clause])];
        clauses := clauses + [None];
      }
      i := i + 1;
    }
    assert fs[..|fs|] == fs;
  }

  /** `clauses.map(c => c || joinedClauses.shift())` as a loop over a queue. */
  method FillSlots(clauses: seq<Option<Sql>>, subs: seq<Sql>) returns (out: seq<Sql>)
    requires NoneCount(clauses) == |subs|
    ensures out == Fill(clauses, subs)
  {
    var queue := subs;
    out := [];
    var j := 0;
    while j < |clauses|
      invariant 0 <= j <= |clauses|
      invariant NoneCount(clauses[j..]) == |queue|
      invariant out + Fill(clauses[j..], queue) == Fill(clauses, subs)
    {
      assert clauses[j..][1..] == clauses[j + 1..];
      match clauses[j] {
        case Some(c) =>
          out := out + [c];
        case None =>
          out := out + [queue[0]];
          queue := queue[1..];
      }
      j := j + 1;
    }
  }

  /** `generateAndClause`. */
  method AndClause(quote: string, table: string, fs: seq<Filter>) returns (r: Sql)
    ensures r == AndSpec(quote, table, fs)
  {
    if |fs| == 0 {
      return [];
    }
    var clauses, joinedClauses, joinedTables := CollectClauses(fs);
    var queue := Subqueries(quote, table, joinedClauses);
    var out := FillSlots(clauses, queue);
    r := JoinSql(out, " AND ");
  }
}

/**
 * The numbering half of the WHERE compiler: the OR clause, which numbers
 * every `__VAR__` token from a running parameter offset, the WHERE prefix,
 * the parameter list that goes with it, and the LEFT JOIN builder that
 * threads the offset through the filters attached to its joins.
 */
module WhereJoin {
  import opened Wrappers
  import opened Strings
  import opened Values
  import opened Fragments
  import opened SqlAdapter
  import opened SqlWhere
  import opened AndFacts

  /**
   * `Math.max(0, parseInt(paramOffset) || 0)`. A number is read back as
   * itself (`ClampOffsetParses` shows the two forms agree on every value).
   */
  function ClampOffset(v: Val): nat
  {
    if v.Num? then (if v.n > 0 then v.n else 0) else ClampInt(ParseInt(ToStr(v)))
  }

  function ClampInt(p: Option<int>): nat
  {
    match p
    case Some(n) => if n > 0 then n else 0
    case None => 0
  }

  /** `ClampOffset` agrees with `Math.max(0, parseInt(paramOffset) || 0)` on every value; a missing offset gives 0. */
  lemma {:induction false} ClampOffsetParses(v: Val)
    ensures ClampOffset(v) == ClampInt(ParseInt(ToStr(v)))
    ensures !Present(v) ==> ClampOffset(v) == 0
  {
    if v.Num? {
      ParseIntOfIntToString(v.n);
    } else if !Present(v) {
      NoDigits(ToStr(v));
    }
  }

  /** `"undefined"` and `"null"` start with no digit, so `parseInt` gives NaN. */
  lemma {:induction false} NoDigits(s: string)
    requires s == "undefined" || s == "null"
    ensures ParseInt(s) == None
  {
    assert TrimStart(s) == s;
    assert DigitRun(s, 10) == 0;
  }

  /** Clamping an offset that is already clamped changes nothing. */
  lemma {:induction false} ClampIdempotent(v: Val)
    ensures ClampOffset(Num(ClampOffset(v))) == ClampOffset(v)
  {
  }

  /**
   * `.replace(/__VAR__/g, () => '$' + (1 + paramOffset++))`: the tokens,
   * left to right, become `$offset+1`, `$offset+2`, …; `next` is the
   * counter's final value.
   */
  method NumberTokens(q: Sql, offset: nat) returns (r: Sql, next: nat)
    ensures r == Number(q, offset + 1)
    ensures next == offset + VarCount(q)
  {
    r := [];
    next := offset;
    var i := 0;
    while i < |q|
      invariant 0 <= i <= |q|
      invariant r == Number(q[..i], offset + 1)
      invariant next == offset + VarCount(q[..i])
    {
      NumberSnoc(q, i, offset + 1);
      if q[i].Var? {
        r := r + [Param(next + 1)];
        next := next + 1;
      } else {
        r := r + [q[i]];
      }
      i := i + 1;
    }
    assert q[..i] == q;
  }

  function AndSpecs(quote: string, table: string, multi: seq<seq<Filter>>): (r: seq<Sql>)
    ensures |r| == |multi|
  {
    if |multi| == 0 then [] else [AndSpec(quote, table, multi[0])] + AndSpecs(quote, table, multi[1..])
  }

  /** None of the AND clauses is numbered yet. */
  lemma {:induction false} AndSpecsUnnumbered(quote: string, table: string, multi: seq<seq<Filter>>)
    ensures forall k :: 0 <= k < |multi| ==> Unnumbered(AndSpecs(quote, table, multi)[k])
  {
    forall k | 0 <= k < |multi|
      ensures Unnumbered(AndSpecs(quote, table, multi)[k])
    {
      AndSpecsAt(quote, table, multi, k);
      AndSpecUnnumbered(quote, table, multi[k]);
    }
  }

  /** Group `k`'s AND clause is the `k`-th element: the groups keep their order. */
  lemma {:induction false} AndSpecsAt(quote: string, table: string, multi: seq<seq<Filter>>, k: nat)
    requires k < |multi|
    ensures AndSpecs(quote, table, multi)[k] == AndSpec(quote, table, multi[k])
  {
    if k > 0 {
      AndSpecsAt(quote, table, multi[1..], k - 1);
    }
  }

  /** `'(' + groups.join(') OR (') + ')'`, before numbering. */
  function OrBody(quote: string, table: string, multi: seq<seq<Filter>>): Sql
  {
    T("(") + JoinSql(AndSpecs(quote, table, multi), ") OR (") + T(")")
  }

  /** The OR body holds no numbered parameter yet. */
  lemma {:induction false} OrBodyUnnumbered(quote: string, table: string, multi: seq<seq<Filter>>)
    ensures Unnumbered(OrBody(quote, table, multi))
  {
    var ands := AndSpecs(quote, table, multi);
    var body := JoinSql(ands, ") OR (");
    AndSpecsUnnumbered(quote, table, multi);
    UnnumberedJoin(ands, ") OR (");
    UnnumberedAppend(T("("), body);
    UnnumberedAppend(T("(") + body, T(")"));
  }

  /** `generateOrClause` with an offset already clamped. */
  function OrSpec(quote: string, table: string, multi: seq<seq<Filter>>, offset: nat): Sql
  {
    if |multi| == 0 then [] else Number(OrBody(quote, table, multi), offset + 1)
  }

  /** `generateOrClause`. */
  method OrClause(quote: string, table: string, multi: seq<seq<Filter>>, paramOffset: Val) returns (r: Sql)
    ensures r == OrSpec(quote, table, multi, ClampOffset(paramOffset))
  {
    var offset := ClampOffset(paramOffset);
    if |multi| == 0 {
      return [];
    }
    var next;
    r, next := NumberTokens(OrBody(quote, table, multi), offset);
  }

  /** The OR clause is empty exactly when there are no groups. */
  lemma {:induction false} OrSpecEmpty(quote: string, table: string, multi: seq<seq<Filter>>, offset: nat)
    ensures OrSpec(quote, table, multi, offset) == [] <==> |multi| == 0
  {
    if |multi| > 0 {
      assert |OrBody(quote, table, multi)| > 0;
    }
  }

  /**
   * The OR clause leaves no token behind and its parameters run
   * consecutively from `offset + 1`, one per token of the groups.
   */
  lemma {:induction false} OrNumbering(quote: string, table: string, multi: seq<seq<Filter>>, offset: nat)
    requires |multi| > 0
    ensures VarCount(OrSpec(quote, table, multi, offset)) == 0
    ensures Placeholders(OrSpec(quote, table, multi, offset)) ==
            Range(offset + 1, offset + 1 + VarCount(OrBody(quote, table, multi)))
  {
    OrBodyUnnumbered(quote, table, multi);
    NumberedFrom(OrSpec(quote, table, multi, offset), OrBody(quote, table, multi), offset);
  }

  /**
   * Numbering from `offset + 1` a sequence without parameters clears its
   * tokens and yields `$offset+1 …` in order, one per token.
   */
  lemma {:induction false} NumberedFrom(r: Sql, q: Sql, offset: nat)
    requires Unnumbered(q) && r == Number(q, offset + 1)
    ensures VarCount(r) == 0
    ensures Placeholders(r) == Range(offset + 1, offset + 1 + VarCount(q))
  {
    NumberUnnumbered(q, offset + 1);
  }

  lemma {:induction false} NumberUnnumbered(q: Sql, next: nat)
    requires Unnumbered(q)
    ensures VarCount(Number(q, next)) == 0
    ensures Placeholders(Number(q, next)) == Range(next, next + VarCount(q))
  {
    NumberClearsVars(q, next);
    UnnumberedPlaceholders(q);
    NumberPlaceholders(q, next);
  }

  /** The OR clause's text: each AND group in parentheses, joined by `' OR '`. */
  lemma {:induction false} OrText(quote: string, table: string, multi: seq<seq<Filter>>)
    ensures Render(OrBody(quote, table, multi)) ==
            "(" + Join(RenderAll(AndSpecs(quote, table, multi)), ") OR (") + ")"
  {
    var ands := AndSpecs(quote, table, multi);
    RenderJoin(ands, ") OR (");
    RenderAppend(T("(") + JoinSql(ands, ") OR ("), T(")"));
    RenderAppend(T("("), JoinSql(ands, ") OR ("));
  }

  /** `generateWhereClause` with an offset already clamped. */
  function WhereSpec(quote: string, table: string, multi: seq<seq<Filter>>, offset: nat): Sql
  {
    if |multi| == 0 then [] else T(" WHERE ") + OrSpec(quote, table, multi, offset)
  }

  /** `generateWhereClause`: ` WHERE ` is added only in front of a non-empty OR clause. */
  method WhereClause(quote: string, table: string, multi: seq<seq<Filter>>, paramOffset: Val) returns (r: Sql)
    ensures r == WhereSpec(quote, table, multi, ClampOffset(paramOffset))
  {
    var offset := ClampOffset(paramOffset);
    if |multi| == 0 {
      return [];
    }
    var or := OrClause(quote, table, multi, Num(offset));
    r := T(" WHERE ") + or;
  }

  lemma {:induction false} WhereShape(quote: string, table: string, multi: seq<seq<Filter>>, offset: nat)
    ensures WhereSpec(quote, table, multi, offset) == [] <==> |multi| == 0
    ensures |multi| > 0 ==> Render(WhereSpec(quote, table, multi, offset)) ==
                            " WHERE " + Render(OrSpec(quote, table, multi, offset))
  {
    if |multi| > 0 {
      RenderAppend(T(" WHERE "), OrSpec(quote, table, multi, offset));
    }
  }

  // ---------------------------------------------------------------------
  // Parameters

  /** The values an AND group binds: those of its sanitised value-taking entries, in entry order. */
  function GroupParams(fs: seq<Filter>): (r: seq<Val>)
    ensures |r| == TotalBinds(fs)
  {
    if |fs| == 0 then []
    else
      var f := fs[|fs| - 1];
      GroupParams(fs[..|fs| - 1]) + (if !f.ignoreValue && f.sanitize then [f.value] else [])
  }

  /** `getParamsFromMultiFilter`: the groups' parameters, concatenated. */
  function GetParams(multi: seq<seq<Filter>>): seq<Val>
  {
    if |multi| == 0 then [] else GroupParams(multi[0]) + GetParams(multi[1..])
  }

  /** Every value in the parameter list comes from a sanitised value-taking entry. */
  lemma {:induction false} GroupParamsFrom(fs: seq<Filter>, i: nat)
    requires i < |GroupParams(fs)|
    ensures exists j :: 0 <= j < |fs| && fs[j].sanitize && !fs[j].ignoreValue && fs[j].value == GroupParams(fs)[i]
  {
    var init := fs[..|fs| - 1];
    var f := fs[|fs| - 1];
    if i < |GroupParams(init)| {
      GroupParamsFrom(init, i);
      var j :| 0 <= j < |init| && init[j].sanitize && !init[j].ignoreValue && init[j].value == GroupParams(init)[i];
      assert fs[j] == init[j];
    } else {
      assert fs[|fs| - 1] == f;
    }
  }

  predicate AllCountable(multi: seq<seq<Filter>>)
  {
    |multi| == 0 || (Countable(multi[0]) && AllCountable(multi[1..]))
  }

  /** The OR body holds one token per value in the parameter list. */
  lemma {:induction false} OrBodyTokens(quote: string, table: string, multi: seq<seq<Filter>>)
    requires AllCountable(multi)
    ensures VarCount(OrBody(quote, table, multi)) == |GetParams(multi)|
  {
    var ands := AndSpecs(quote, table, multi);
    VarCountAppend(T("(") + JoinSql(ands, ") OR ("), T(")"));
    VarCountAppend(T("("), JoinSql(ands, ") OR ("));
    VarCountJoin(ands, ") OR (");
    AndsTokens(quote, table, multi);
  }

  lemma {:induction false} AndsTokens(quote: string, table: string, multi: seq<seq<Filter>>)
    requires AllCountable(multi)
    ensures SumVarCounts(AndSpecs(quote, table, multi)) == |GetParams(multi)|
  {
    if |multi| > 0 {
      AndTokens(quote, table, multi[0]);
      AndsTokens(quote, table, multi[1..]);
      assert AndSpecs(quote, table, multi)[1..] == AndSpecs(quote, table, multi[1..]);
    }
  }

  /**
   * Placeholder count equals parameter count: the WHERE clause's parameters
   * are `$offset+1 … $offset+n` in order, where `n` is the length of the
   * parameter list for the same groups.
   */
  lemma {:induction false} WhereParams(quote: string, table: string, multi: seq<seq<Filter>>, offset: nat)
    requires AllCountable(multi)
    ensures Placeholders(WhereSpec(quote, table, multi, offset)) == Range(offset + 1, offset + 1 + |GetParams(multi)|)
  {
    OrBodyTokens(quote, table, multi);
    WhereNumbering(quote, table, multi, offset, GetParams(multi));
  }

  /** An OR body with one token per value of `ps` numbers `$offset+1 … $offset+|ps|`. */
  lemma {:induction false} WhereNumbering(quote: string, table: string, multi: seq<seq<Filter>>, offset: nat, ps: seq<Val>)
    requires VarCount(OrBody(quote, table, multi)) == |ps|
    ensures Placeholders(WhereSpec(quote, table, multi, offset)) == Range(offset + 1, offset + 1 + |ps|)
  {
    if |multi| > 0 {
      var or := OrSpec(quote, table, multi, offset);
      OrNumbering(quote, table, multi, offset);
      PlaceholdersAppend(T(" WHERE "), or);
    } else {
      assert OrBody(quote, table, multi) == T("(") + T(")");
    }
  }

  /**
   * The k-th placeholder and the k-th parameter need not belong to the same
   * entry: the subquery gathers both entries of alias `a` ahead of the plain
   * entry `p` between them, while the parameters keep entry order.
   */
  lemma {:induction false} ParamOrderFollowsEntries(quote: string, table: string, j1: Filter, p: Filter, j2: Filter)
    requires j1.joined && j2.joined && j1.alias == j2.alias && !p.joined
    ensures Pieces(quote, table, [j1, p, j2], 3) ==
            [Subquery(quote, table, Group(j1.table, j1.joins, [ClauseOf(j1), ClauseOf(j2)])), ClauseOf(p)]
    ensures (j1.sanitize && !j1.ignoreValue && p.sanitize && !p.ignoreValue && j2.sanitize && !j2.ignoreValue) ==>
            GroupParams([j1, p, j2]) == [j1.value, p.value, j2.value]
  {
    SubqueryGathersAlias(quote, table, j1, p, j2);
    ParamsKeepEntryOrder(j1, p, j2);
  }

  lemma {:induction false} SubqueryGathersAlias(quote: string, table: string, j1: Filter, p: Filter, j2: Filter)
    requires j1.joined && j2.joined && j1.alias == j2.alias && !p.joined
    ensures Pieces(quote, table, [j1, p, j2], 3) ==
            [Subquery(quote, table, Group(j1.table, j1.joins, [ClauseOf(j1), ClauseOf(j2)])), ClauseOf(p)]
  {
    var fs := [j1, p, j2];
    var a := j1.alias;
    assert fs[..2] == [j1, p] && fs[..3] == fs && fs[2] == j2;
    assert [j1, p][..1] == [j1] && [j1, p][1] == p;
    assert [j1][..0] == [] && [j1][0] == j1;
    assert AliasClauses([j1], a) == [ClauseOf(j1)];
    assert AliasClauses([j1, p], a) == [ClauseOf(j1)];
    assert AliasClauses(fs, a) == [ClauseOf(j1), ClauseOf(j2)];
    assert FirstJoined(fs, a) == Some(j1) by {
      assert FirstJoined([j1], a) == Some(j1);
      assert FirstJoined([j1, p], a) == Some(j1);
    }
    var s := Subquery(quote, table, GroupOf(fs, a));
    assert !AliasSeen([], a);
    assert Pieces(quote, table, fs, 1) == [s];
    assert Pieces(quote, table, fs, 2) == [s, ClauseOf(p)];
    assert AliasSeen([j1, p], a) by { assert [j1, p][0] == j1; }
    assert Pieces(quote, table, fs, 3) == [s, ClauseOf(p)];
  }

  lemma {:induction false} ParamsKeepEntryOrder(j1: Filter, p: Filter, j2: Filter)
    ensures (j1.sanitize && !j1.ignoreValue && p.sanitize && !p.ignoreValue && j2.sanitize && !j2.ignoreValue) ==>
            GroupParams([j1, p, j2]) == [j1.value, p.value, j2.value]
  {
    assert [j1, p, j2][..2] == [j1, p] && [j1, p][..1] == [j1] && [j1][..0] == [];
    assert GroupParams([j1]) == (if !j1.ignoreValue && j1.sanitize then [j1.value] else []);
    assert GroupParams([j1, p]) == GroupParams([j1]) + (if !p.ignoreValue && p.sanitize then [p.value] else []);
  }

  // ---------------------------------------------------------------------
  // LEFT JOIN

  /**
   * A join entry as the adapter reads it. `joinColumn`/`prevColumn` are
   * sequences (a single column is a one-element sequence), a blank
   * `prevAlias` is a falsy one, and a join without filters has no groups.
   */
  datatype JoinEntry = JoinEntry(
    joinTable: string, joinAlias: string, joinColumns: seq<string>, prevColumns: seq<string>,
    prevAlias: string, multiFilter: seq<seq<Filter>>)

  function Equality(quote: string, table: string, j: JoinEntry, joinColumn: string, prevColumn: string): string
  {
    Qualified(quote, j.joinAlias, joinColumn) + " = " +
    Qualified(quote, if j.prevAlias != "" then j.prevAlias else table, prevColumn)
  }

  /** The equalities for one join column against the first `n` previous columns. */
  function Row(quote: string, table: string, j: JoinEntry, joinColumn: string, n: nat): (r: seq<string>)
    requires n <= |j.prevColumns|
    ensures |r| == n
    ensures forall k :: 0 <= k < n ==> r[k] == Equality(quote, table, j, joinColumn, j.prevColumns[k])
  {
    if n == 0 then [] else Row(quote, table, j, joinColumn, n - 1) + [Equality(quote, table, j, joinColumn, j.prevColumns[n - 1])]
  }

  /** The equalities of the first `m` join columns, each against every previous column. */
  function Pairs(quote: string, table: string, j: JoinEntry, m: nat): (r: seq<string>)
    requires m <= |j.joinColumns|
  {
    if m == 0 then [] else Pairs(quote, table, j, m - 1) + Row(quote, table, j, j.joinColumns[m - 1], |j.prevColumns|)
  }

  /**
   * The nested `forEach` pushes one equality per (join column, previous
   * column) pair, join column major: pair `(i, k)` sits at `i * |prev| + k`.
   */
  lemma {:induction false} PairsAt(quote: string, table: string, j: JoinEntry, m: nat)
    requires m <= |j.joinColumns|
    ensures |Pairs(quote, table, j, m)| == m * |j.prevColumns|
    ensures forall i, k :: 0 <= i < m && 0 <= k < |j.prevColumns| ==> PairAt(quote, table, j, m, i, k)
  {
    PairsLength(quote, table, j, m);
    forall i, k | 0 <= i < m && 0 <= k < |j.prevColumns|
      ensures PairAt(quote, table, j, m, i, k)
    {
      RowMajorBound(i, k, |j.prevColumns|, m);
      PairsIndex(quote, table, j, m, i, k);
    }
  }

  /** Pair `(i, k)` of the first `m` join columns sits at `i * |prevColumns| + k`. */
  predicate PairAt(quote: string, table: string, j: JoinEntry, m: nat, i: nat, k: nat)
    requires m <= |j.joinColumns| && i < m && k < |j.prevColumns|
  {
    var at := i * |j.prevColumns| + k;
    at < |Pairs(quote, table, j, m)| && Pairs(quote, table, j, m)[at] == Equality(quote, table, j, j.joinColumns[i], j.prevColumns[k])
  }

  lemma {:induction false} PairsLength(quote: string, table: string, j: JoinEntry, m: nat)
    requires m <= |j.joinColumns|
    ensures |Pairs(quote, table, j, m)| == m * |j.prevColumns|
  {
    if m > 0 {
      PairsLength(quote, table, j, m - 1);
      assert m * |j.prevColumns| == (m - 1) * |j.prevColumns| + |j.prevColumns|;
    }
  }

  lemma {:induction false} PairsIndex(quote: string, table: string, j: JoinEntry, m: nat, i: nat, k: nat)
    requires m <= |j.joinColumns| && i < m && k < |j.prevColumns|
    requires i * |j.prevColumns| + k < m * |j.prevColumns|
    ensures |Pairs(quote, table, j, m)| == m * |j.prevColumns|
    ensures Pairs(quote, table, j, m)[i * |j.prevColumns| + k] == Equality(quote, table, j, j.joinColumns[i], j.prevColumns[k])
  {
    var p := |j.prevColumns|;
    PairsLength(quote, table, j, m);
    PairsLength(quote, table, j, m - 1);
    var before := Pairs(quote, table, j, m - 1);
    var row := Row(quote, table, j, j.joinColumns[m - 1], p);
    assert Pairs(quote, table, j, m) == before + row;
    if i < m - 1 {
      RowMajorBound(i, k, p, m - 1);
      PairsIndex(quote, table, j, m - 1, i, k);
    } else {
      assert i * p == |before|;
    }
  }

  lemma {:induction false} RowMajorBound(i: nat, k: nat, p: nat, m: nat)
    requires i < m && k < p
    ensures i * p + k < m * p
  {
    MulMonotone(i + 1, m, p);
    assert (i + 1) * p == i * p + p;
  }

  lemma {:induction false} MulMonotone(a: nat, b: nat, p: nat)
    requires a <= b
    ensures a * p <= b * p
    decreases b - a
  {
    if a < b {
      MulMonotone(a, b - 1, p);
      assert b * p == (b - 1) * p + p;
    }
  }

  /** The statements of the nested `forEach` in `generateLeftJoin`, built one pair at a time. */
  method JoinEqualities(quote: string, table: string, j: JoinEntry) returns (statements: seq<string>)
    ensures statements == Pairs(quote, table, j, |j.joinColumns|)
  {
    statements := [];
    var a := 0;
    while a < |j.joinColumns|
      invariant 0 <= a <= |j.joinColumns|
      invariant statements == Pairs(quote, table, j, a)
    {
      var b := 0;
      while b < |j.prevColumns|
        invariant 0 <= b <= |j.prevColumns|
        invariant statements == Pairs(quote, table, j, a) + Row(quote, table, j, j.joinColumns[a], b)
      {
        statements := statements + [Equality(quote, table, j, j.joinColumns[a], j.prevColumns[b])];
        b := b + 1;
      }
      a := a + 1;
    }
  }

  /** The entries of one group that are not IS-tests. */
  function NonIgnored(fs: seq<Filter>): nat
  {
    if |fs| == 0 then 0 else NonIgnored(fs[..|fs| - 1]) + (if fs[|fs| - 1].ignoreValue then 0 else 1)
  }

  /** How far a join's filters advance the offset: one per entry that is not an IS-test. */
  function Advance(multi: seq<seq<Filter>>): nat
  {
    if |multi| == 0 then 0 else Advance(multi[..|multi| - 1]) + NonIgnored(multi[|multi| - 1])
  }

  /** The offsets all of `joins` advance by, one join after another. */
  function TotalAdvance(joins: seq<JoinEntry>): nat
  {
    if |joins| == 0 then 0 else TotalAdvance(joins[..|joins| - 1]) + Advance(joins[|joins| - 1].multiFilter)
  }

  /** The five pieces of one join statement, joined with `''`; an empty filter adds no `AND`. */
  function StatementOf(quote: string, j: JoinEntry, equalities: seq<string>, filter: Sql): Sql
  {
    T(" LEFT JOIN " + EscapeField(quote, j.joinTable) + " AS " + EscapeField(quote, j.joinAlias) +
      " ON (" + Join(equalities, " OR ")) +
    (if |filter| > 0 then T(" AND (") + filter + T(")") else []) +
    T(")")
  }

  /** One ` LEFT JOIN … ON (…)` statement, its filter numbered from `offset + 1`. */
  function JoinStatement(quote: string, table: string, j: JoinEntry, offset: nat): Sql
  {
    StatementOf(quote, j, Pairs(quote, table, j, |j.joinColumns|), OrSpec(quote, j.joinAlias, j.multiFilter, offset))
  }

  /** The join statements, each numbered from where the previous joins' filters left the offset. */
  function JoinStatements(quote: string, table: string, joins: seq<JoinEntry>, offset: nat): (r: seq<Sql>)
    ensures |r| == |joins|
  {
    seq(|joins|, i requires 0 <= i < |joins| => JoinStatement(quote, table, joins[i], offset + TotalAdvance(joins[..i])))
  }

  /** The JOIN clause: the statements one after another. */
  function JoinSpec(quote: string, table: string, joins: seq<JoinEntry>, offset: nat): Sql
  {
    Concat(JoinStatements(quote, table, joins, offset))
  }

  /** The statement the loop builds for join `i` is the `i`-th specified statement. */
  lemma {:induction false} StatementStep(quote: string, table: string, joins: seq<JoinEntry>, start: nat, i: nat,
                      equalities: seq<string>, filter: Sql)
    requires i < |joins|
    requires equalities == Pairs(quote, table, joins[i], |joins[i].joinColumns|)
    requires filter == OrSpec(quote, joins[i].joinAlias, joins[i].multiFilter, start + TotalAdvance(joins[..i]))
    ensures StatementOf(quote, joins[i], equalities, filter) == JoinStatements(quote, table, joins, start)[i]
  {
    var offset := start + TotalAdvance(joins[..i]);
    StatementIs(quote, table, joins[i], offset, equalities, filter);
    JoinStatementsAt(quote, table, joins, start, i);
  }

  lemma {:induction false} StatementIs(quote: string, table: string, j: JoinEntry, offset: nat, equalities: seq<string>, filter: Sql)
    requires equalities == Pairs(quote, table, j, |j.joinColumns|)
    requires filter == OrSpec(quote, j.joinAlias, j.multiFilter, offset)
    ensures StatementOf(quote, j, equalities, filter) == JoinStatement(quote, table, j, offset)
  {
  }

  lemma {:induction false} JoinStatementsAt(quote: string, table: string, joins: seq<JoinEntry>, start: nat, i: nat)
    requires i < |joins|
    ensures JoinStatements(quote, table, joins, start)[i] == JoinStatement(quote, table, joins[i], start + TotalAdvance(joins[..i]))
  {
  }

  lemma {:induction false} TotalAdvanceSnoc(joins: seq<JoinEntry>, i: nat)
    requires i < |joins|
    ensures TotalAdvance(joins[..i + 1]) == TotalAdvance(joins[..i]) + Advance(joins[i].multiFilter)
  {
    assert joins[..i + 1][..i] == joins[..i];
  }

  /** `join.multiFilter.forEach(arr => paramOffset += …)`. */
  method AdvanceOffset(offset: nat, multi: seq<seq<Filter>>) returns (next: nat)
    ensures next == offset + Advance(multi)
  {
    next := offset;
    var k := 0;
    while k < |multi|
      invariant 0 <= k <= |multi|
      invariant next == offset + Advance(multi[..k])
    {
      assert multi[..k + 1][..k] == multi[..k];
      next := next + NonIgnored(multi[k]);
      k := k + 1;
    }
    assert multi[..k] == multi;
  }

  /** One pass of `generateJoinClause`'s loop: join `i`'s statement and the offset after its filters. */
  method JoinStep(quote: string, table: string, joins: seq<JoinEntry>, ghost start: nat, i: nat, offset: nat)
    returns (statement: Sql, next: nat)
    requires i < |joins| && offset == start + TotalAdvance(joins[..i])
    ensures statement == JoinStatements(quote, table, joins, start)[i]
    ensures next == start + TotalAdvance(joins[..i + 1])
  {
    var j := joins[i];
    var statements := JoinEqualities(quote, table, j);
    assert ClampOffset(Num(offset)) == offset;
    var filterClause := OrClause(quote, j.joinAlias, j.multiFilter, Num(offset));
    statement := StatementOf(quote, j, statements, filterClause);
    StatementStep(quote, table, joins, start, i, statements, filterClause);
    TotalAdvanceSnoc(joins, i);
    next := AdvanceOffset(offset, j.multiFilter);
  }

  /** `generateJoinClause`. */
  method JoinClause(quote: string, table: string, joins: seq<JoinEntry>, paramOffset: Val) returns (r: Sql)
    ensures r == JoinSpec(quote, table, joins, ClampOffset(paramOffset))
  {
    var offset: nat := ClampOffset(paramOffset);
    ghost var start := offset;
    ghost var stmts := JoinStatements(quote, table, joins, start);
    r := [];
    var i := 0;
    while i < |joins|
      invariant 0 <= i <= |joins|
      invariant r == Concat(stmts[..i])
      invariant offset == start + TotalAdvance(joins[..i])
    {
      var statement;
      statement, offset := JoinStep(quote, table, joins, start, i, offset);
      ConcatSnoc(stmts, i, r, statement);
      r := r + statement;
      i := i + 1;
    }
    assert stmts[..i] == stmts;
  }
}

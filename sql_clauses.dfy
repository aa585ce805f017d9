/**
 * The remaining clause builders of the SQL adapter: ORDER BY (which
 * resolves `alias__column` names against the joins), GROUP BY, the
 * neutral LIMIT clause, and the `aggregates` table with its lookup.
 */
module SqlClauses {
  import opened Wrappers
  import opened Strings
  import opened Values
  import opened SqlAdapter
  import opened WhereJoin

  // ---------------------------------------------------------------------
  // Aggregates

  /** The entries of the `aggregates` table. */
  datatype Aggregate = Sum | Avg | Min | Max | Count | Distinct | NoValue | MinDate | MaxDate | CountTrue

  const AllAggregates: seq<Aggregate> := [Sum, Avg, Min, Max, Count, Distinct, NoValue, MinDate, MaxDate, CountTrue]

  /** The key of the aggregate in the `aggregates` table. */
  function AggregateName(a: Aggregate): string
  {
    match a
    case Sum => "sum"
    case Avg => "avg"
    case Min => "min"
    case Max => "max"
    case Count => "count"
    case Distinct => "distinct"
    case NoValue => "none"
    case MinDate => "min_date"
    case MaxDate => "max_date"
    case CountTrue => "count_true"
  }

  /** The SQL the aggregate builds around a field. */
  function AggregateSql(a: Aggregate, field: string): string
  {
    match a
    case Sum => "SUM(" + field + ")"
    case Avg => "AVG(" + field + ")"
    case Min => "MIN(" + field + ")"
    case Max => "MAX(" + field + ")"
    case Count => "COUNT(" + field + ")"
    case Distinct => "COUNT(DISTINCT(" + field + "))"
    case NoValue => "NULL"
    case MinDate => "MIN(DATE_TRUNC('day', " + field + "))"
    case MaxDate => "MAX(DATE_TRUNC('day', " + field + "))"
    case CountTrue => "COUNT(CASE WHEN " + field + " THEN 1 ELSE NULL END)"
  }

  /** `defaultAggregate` is `'none'`. */
  const DefaultAggregate: Aggregate := NoValue

  function FindAggregate(name: string, list: seq<Aggregate>): (r: Option<Aggregate>)
    ensures r.Some? ==> r.value in list && AggregateName(r.value) == name
    ensures r.None? ==> forall a :: a in list ==> AggregateName(a) != name
  {
    if |list| == 0 then None
    else if AggregateName(list[0]) == name then Some(list[0])
    else FindAggregate(name, list[1..])
  }

  /** What `aggregate` is called with: a function of the field, or a table key. */
  datatype Aggregator = Given(fn: string -> string) | Named(name: string)

  /** What `aggregate` returns: a caller's function, or an entry of the table. */
  datatype AggregateFn = User(fn: string -> string) | Table(a: Aggregate)

  /** `aggregate(aggregator)`: a function is returned as it is; a name is looked up, falling back to `none`. */
  function AggregateOf(arg: Aggregator): AggregateFn
  {
    match arg
    case Given(f) => User(f)
    case Named(n) =>
      match FindAggregate(n, AllAggregates)
      case Some(a) => Table(a)
      case None => Table(DefaultAggregate)
  }

  /** Calling the function `aggregate` returned on a field. */
  function ApplyAggregate(f: AggregateFn, field: string): string
  {
    match f
    case User(fn) => fn(field)
    case Table(a) => AggregateSql(a, field)
  }

  lemma {:induction false} AllAggregatesListed(a: Aggregate)
    ensures a in AllAggregates
  {
    match a
    case Sum => assert AllAggregates[0] == a;
    case Avg => assert AllAggregates[1] == a;
    case Min => assert AllAggregates[2] == a;
    case Max => assert AllAggregates[3] == a;
    case Count => assert AllAggregates[4] == a;
    case Distinct => assert AllAggregates[5] == a;
    case NoValue => assert AllAggregates[6] == a;
    case MinDate => assert AllAggregates[7] == a;
    case MaxDate => assert AllAggregates[8] == a;
    case CountTrue => assert AllAggregates[9] == a;
  }

  /** Every aggregate is found under its own key: keys and aggregates correspond one to one. */
  lemma {:induction false} AggregateByName(a: Aggregate)
    ensures AggregateOf(Named(AggregateName(a))) == Table(a)
  {
    AllAggregatesListed(a);
    var r := FindAggregate(AggregateName(a), AllAggregates);
    assert r.Some?;
    AggregateNameInjective(r.value, a);
  }

  lemma {:induction false} AggregateNameInjective(a: Aggregate, b: Aggregate)
    requires AggregateName(a) == AggregateName(b)
    ensures a == b
  {
  }

  /** A key outside the table gives the default, which renders every field as `NULL`. */
  lemma {:induction false} AggregateUnknown(name: string, field: string)
    requires forall a: Aggregate :: AggregateName(a) != name
    ensures AggregateOf(Named(name)) == Table(NoValue)
    ensures ApplyAggregate(AggregateOf(Named(name)), field) == "NULL"
  {
  }

  /** A function argument is handed back untouched. */
  lemma {:induction false} AggregateGiven(fn: string -> string, field: string)
    ensures ApplyAggregate(AggregateOf(Given(fn)), field) == fn(field)
  {
  }

  // ---------------------------------------------------------------------
  // ORDER BY

  /**
   * An `orderByArray` entry as the adapter reads it; `transformation`
   * receives the escaped columns (absent: the identity `v => v`, which
   * returns the first of them).
   */
  datatype OrderEntry = OrderEntry(columnNames: seq<string>, direction: string, transformation: Option<seq<string> -> string>)

  /** The separator between a join alias and a column (`'__'`). */
  const Depth: string := "__"

  ghost predicate Plain(name: string)
  {
    forall j :: !OccursAt(name, Depth, j)
  }

  /** `joinArray.find(join => join.joinAlias === alias)`. */
  function FindJoin(joins: seq<JoinEntry>, alias: string): (r: Option<JoinEntry>)
    ensures r.Some? ==> r.value in joins && r.value.joinAlias == alias
    ensures r.None? ==> forall j :: j in joins ==> j.joinAlias != alias
  {
    if |joins| == 0 then None
    else if joins[0].joinAlias == alias then Some(joins[0])
    else FindJoin(joins[1..], alias)
  }

  /**
   * One column of an ORDER BY entry: a name without `__` is qualified by the
   * table; `alias__column` by the join of that alias when there is one and by
   * the table (whole name) when there is none; with no join array at all such
   * a name gives `null` (`None`), which the filter then drops.
   */
  function OrderColumn(quote: string, table: string, joins: Option<seq<JoinEntry>>, name: string): Option<string>
  {
    var parts := Split(name, Depth);
    if |parts| == 1 then Some(Qualified(quote, table, name))
    else if joins.None? then None
    else
      match FindJoin(joins.value, Join(parts[..|parts| - 1], Depth))
      case None => Some(Qualified(quote, table, name))
      case Some(j) => Some(Qualified(quote, j.joinAlias, parts[|parts| - 1]))
  }

  /** `name` is `alias__column` with a column part free of `__`. */
  ghost predicate AliasColumn(name: string, alias: string, column: string)
  {
    alias + Depth + column == name && Plain(column)
  }

  /** A name without `__` is the table's column, joins or no joins. */
  lemma {:induction false} OrderColumnPlain(quote: string, table: string, joins: Option<seq<JoinEntry>>, name: string)
    requires Plain(name)
    ensures OrderColumn(quote, table, joins, name) == Some(Qualified(quote, table, name))
  {
    SplitSingle(name, Depth);
  }

  /** Without a join array exactly the names without `__` survive. */
  lemma {:induction false} OrderColumnNoJoins(quote: string, table: string, name: string)
    ensures OrderColumn(quote, table, None, name).Some? <==> Plain(name)
  {
    SplitSingle(name, Depth);
  }

  /**
   * With a join array every name resolves: to the table's column, or to
   * `alias.column` where `alias__column` is the name, the column part holds
   * no `__`, and some join carries that alias.
   */
  lemma {:induction false} OrderColumnJoined(quote: string, table: string, joins: seq<JoinEntry>, name: string)
    ensures var r := OrderColumn(quote, table, Some(joins), name);
            r.Some? &&
            (r.value == Qualified(quote, table, name) ||
             exists j, column :: j in joins && AliasColumn(name, j.joinAlias, column) && r.value == Qualified(quote, j.joinAlias, column))
  {
    var parts := Split(name, Depth);
    if |parts| > 1 {
      var alias := Join(parts[..|parts| - 1], Depth);
      var found := FindJoin(joins, alias);
      if found.Some? {
        SplitLast(name, Depth, |parts| - 1);
        assert AliasColumn(name, found.value.joinAlias, parts[|parts| - 1]);
      }
    }
  }

  /** `columnNames.map(…).filter(c => !!c)`: the escaped columns of one entry. */
  function EscapedColumns(quote: string, table: string, joins: Option<seq<JoinEntry>>, names: seq<string>): (r: seq<string>)
    ensures |r| <= |names|
  {
    if |names| == 0 then []
    else
      (match OrderColumn(quote, table, joins, names[0]) case Some(c) => [c] case None => []) +
      EscapedColumns(quote, table, joins, names[1..])
  }

  /** With a join array nothing is dropped: one escaped column per name, in order. */
  lemma {:induction false} EscapedColumnsKeepAll(quote: string, table: string, joins: seq<JoinEntry>, names: seq<string>)
    ensures |EscapedColumns(quote, table, Some(joins), names)| == |names|
    ensures forall k :: 0 <= k < |names| ==>
              Some(EscapedColumns(quote, table, Some(joins), names)[k]) == OrderColumn(quote, table, Some(joins), names[k])
  {
    if |names| > 0 {
      OrderColumnJoined(quote, table, joins, names[0]);
      EscapedColumnsKeepAll(quote, table, joins, names[1..]);
    }
  }

  /** One ORDER BY term: the transformation of the escaped columns, a space, the direction. */
  function OrderTerm(e: OrderEntry, columns: seq<string>): string
    requires |columns| > 0
  {
    (if e.transformation.Some? then e.transformation.value(columns) else columns[0]) + " " + e.direction
  }

  /** The terms of the entries that keep at least one escaped column, in entry order. */
  function OrderTerms(quote: string, table: string, joins: Option<seq<JoinEntry>>, entries: seq<OrderEntry>): (r: seq<string>)
    ensures |r| <= |entries|
  {
    if |entries| == 0 then []
    else
      var columns := EscapedColumns(quote, table, joins, entries[0].columnNames);
      (if |columns| > 0 then [OrderTerm(entries[0], columns)] else []) + OrderTerms(quote, table, joins, entries[1..])
  }

  /** `generateOrderByClause` (its `groupByArray` argument is not read). */
  function OrderByClause(quote: string, table: string, entries: seq<OrderEntry>, joins: Option<seq<JoinEntry>>): string
  {
    var terms := OrderTerms(quote, table, joins, entries);
    if |terms| == 0 then "" else " ORDER BY " + Join(terms, ", ")
  }

  /** The clause is empty exactly when no entry keeps an escaped column. */
  lemma {:induction false} OrderByEmpty(quote: string, table: string, entries: seq<OrderEntry>, joins: Option<seq<JoinEntry>>)
    ensures OrderByClause(quote, table, entries, joins) == "" <==>
            forall k :: 0 <= k < |entries| ==> EscapedColumns(quote, table, joins, entries[k].columnNames) == []
  {
    OrderTermsEmpty(quote, table, joins, entries);
  }

  lemma {:induction false} OrderTermsEmpty(quote: string, table: string, joins: Option<seq<JoinEntry>>, entries: seq<OrderEntry>)
    ensures OrderTerms(quote, table, joins, entries) == [] <==>
            forall k :: 0 <= k < |entries| ==> EscapedColumns(quote, table, joins, entries[k].columnNames) == []
  {
    if |entries| > 0 {
      OrderTermsEmpty(quote, table, joins, entries[1..]);
      assert forall k :: 0 < k < |entries| ==> entries[1..][k - 1] == entries[k];
    }
  }

  /**
   * With a join array and no entry without column names, every entry gives
   * exactly one term, in entry order.
   */
  lemma {:induction false} OrderTermsAll(quote: string, table: string, joins: seq<JoinEntry>, entries: seq<OrderEntry>)
    requires forall k :: 0 <= k < |entries| ==> |entries[k].columnNames| > 0
    ensures var r := OrderTerms(quote, table, Some(joins), entries);
            |r| == |entries| &&
            forall k :: 0 <= k < |entries| ==>
              r[k] == OrderTerm(entries[k], EscapedColumns(quote, table, Some(joins), entries[k].columnNames))
  {
    if |entries| > 0 {
      EscapedColumnsKeepAll(quote, table, joins, entries[0].columnNames);
      OrderTermsAll(quote, table, joins, entries[1..]);
      assert forall k :: 0 < k < |entries| ==> entries[1..][k - 1] == entries[k];
    }
  }

  // ---------------------------------------------------------------------
  // GROUP BY

  /** A `groupByArray` entry as the adapter reads it. */
  datatype GroupEntry = GroupEntry(columnNames: seq<string>, transformation: seq<string> -> string)

  function QualifyAll(quote: string, table: string, names: seq<string>): (r: seq<string>)
    ensures |r| == |names|
    ensures forall k :: 0 <= k < |names| ==> r[k] == Qualified(quote, table, names[k])
  {
    if |names| == 0 then [] else [Qualified(quote, table, names[0])] + QualifyAll(quote, table, names[1..])
  }

  /** One GROUP BY term: the transformation applied to the table-qualified columns. */
  function GroupTerm(quote: string, table: string, g: GroupEntry): string
  {
    g.transformation(QualifyAll(quote, table, g.columnNames))
  }

  function GroupTerms(quote: string, table: string, groups: seq<GroupEntry>): (r: seq<string>)
    ensures |r| == |groups|
    ensures forall k :: 0 <= k < |groups| ==> r[k] == GroupTerm(quote, table, groups[k])
  {
    if |groups| == 0 then [] else [GroupTerm(quote, table, groups[0])] + GroupTerms(quote, table, groups[1..])
  }

  /** `generateGroupByClause`. */
  function GroupByClause(quote: string, table: string, groups: seq<GroupEntry>): string
  {
    if |groups| == 0 then "" else " GROUP BY " + Join(GroupTerms(quote, table, groups), ", ")
  }

  /**
   * The clause is empty exactly when there are no entries; otherwise it is
   * ` GROUP BY ` and one term per entry, in order, comma-separated.
   */
  lemma {:induction false} GroupByShape(quote: string, table: string, groups: seq<GroupEntry>)
    ensures GroupByClause(quote, table, groups) == "" <==> |groups| == 0
    ensures |groups| == 1 ==> GroupByClause(quote, table, groups) == " GROUP BY " + GroupTerm(quote, table, groups[0])
    ensures |groups| > 1 ==>
              GroupByClause(quote, table, groups) ==
              GroupByClause(quote, table, groups[..|groups| - 1]) + ", " + GroupTerm(quote, table, groups[|groups| - 1])
  {
    if |groups| > 1 {
      var init := groups[..|groups| - 1];
      var terms := GroupTerms(quote, table, groups);
      assert terms == GroupTerms(quote, table, init) + [GroupTerm(quote, table, groups[|groups| - 1])];
      JoinSnoc(GroupTerms(quote, table, init), GroupTerm(quote, table, groups[|groups| - 1]), ", ");
    }
  }

  // ---------------------------------------------------------------------
  // LIMIT

  /** The `{count, offset}` object the builders receive. */
  datatype LimitObj = LimitObj(count: Val, offset: Val)

  /**
   * `generateLimitClause` of the neutral adapter: ` LIMIT offset, count`,
   * the offset first, each rendered as `Array.prototype.join` renders it.
   */
  function BaseLimitClause(limit: Option<LimitObj>): (r: string)
  {
    match limit
    case None => ""
    case Some(l) => " LIMIT " + JoinText(l.offset) + ", " + JoinText(l.count)
  }

  /**
   * The clause is empty only without a limit object, and the offset comes
   * before the count; a missing count or offset leaves its place empty.
   */
  lemma {:induction false} BaseLimitShape(limit: Option<LimitObj>)
    ensures BaseLimitClause(limit) == "" <==> limit.None?
    ensures limit.Some? ==> BaseLimitClause(limit)[..7] == " LIMIT "
    ensures limit.Some? && !Present(limit.value.count) && !Present(limit.value.offset) ==> BaseLimitClause(limit) == " LIMIT , "
  {
  }
}

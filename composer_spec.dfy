/**
 * The values the query builder works on and the state changes of its
 * methods, stated as functions: pagination, the `id`-first ordering a join
 * forces, joined-column aliases, ORDER BY and GROUP BY entries, and the
 * parsing of filter objects.
 */
module ComposerSpec {
  import opened Wrappers
  import opened Strings
  import opened Values
  import opened SqlWhere
  import SqlClauses

  // ---------------------------------------------------------------------
  // The model constructor as the builder sees it

  /** An entry of the model's `_joins`: the relationship and the joined model's table and columns. */
  datatype Relation = Relation(child: bool, multiple: bool, via: string, table: string, columnNames: seq<string>)

  /** The model constructor: its table, columns (`columnLookup`), relationships and `aggregateBy` table. */
  datatype ModelDef = ModelDef(table: string, columnNames: seq<string>, joins: map<string, Relation>, aggregateBy: map<string, SqlClauses.Aggregator>)

  /** A user-supplied formatting function over the escaped columns. */
  type Transform = seq<string> -> string

  // ---------------------------------------------------------------------
  // Numbers and pagination

  /** A JavaScript number as `parseInt` produces it: an integer, or NaN. */
  datatype JsNumber = NaN | Finite(n: int)

  predicate NumTruthy(x: JsNumber)
  {
    x.Finite? && x.n != 0
  }

  /** `parseInt(v)`: the value converted to a string, then read as an integer. */
  function ParseIntOf(v: Val): JsNumber
  {
    match ParseInt(ToStr(v))
    case Some(n) => Finite(n)
    case None => NaN
  }

  /** `Math.min`; NaN wins. */
  function NumMin(a: JsNumber, b: JsNumber): (r: JsNumber)
    ensures r.Finite? <==> a.Finite? && b.Finite?
    ensures r.Finite? ==> r.n <= a.n && r.n <= b.n && (r.n == a.n || r.n == b.n)
  {
    if a.NaN? || b.NaN? then NaN else Finite(if a.n <= b.n then a.n else b.n)
  }

  /** `Math.max`; NaN wins. */
  function NumMax(a: JsNumber, b: JsNumber): (r: JsNumber)
    ensures r.Finite? <==> a.Finite? && b.Finite?
    ensures r.Finite? ==> r.n >= a.n && r.n >= b.n && (r.n == a.n || r.n == b.n)
  {
    if a.NaN? || b.NaN? then NaN else Finite(if a.n >= b.n then a.n else b.n)
  }

  /** `+` on numbers; NaN is absorbing. */
  function NumAdd(a: JsNumber, b: JsNumber): (r: JsNumber)
    ensures r.Finite? <==> a.Finite? && b.Finite?
    ensures r.Finite? ==> r.n == a.n + b.n
  {
    if a.NaN? || b.NaN? then NaN else Finite(a.n + b.n)
  }

  /** The builder's `_count` and `_offset`. */
  datatype Page = Page(count: JsNumber, offset: JsNumber)

  const NoPage: Page := Page(Finite(0), Finite(0))

  /**
   * `limit(offset, count)`: with `count` undefined the single argument is
   * the count and the offset is 0. The count is clamped at 0 while no
   * (truthy) count is set, and can only be lowered afterwards; offsets add up.
   */
  function Limit(p: Page, offsetArg: Val, countArg: Val): Page
  {
    var count := ParseIntOf(if countArg.Undefined? then offsetArg else countArg);
    var offset := ParseIntOf(if countArg.Undefined? then Num(0) else offsetArg);
    Page(if NumTruthy(p.count) then NumMin(count, p.count) else NumMax(count, Finite(0)), NumAdd(p.offset, offset))
  }

  lemma {:induction false} ParseIntOfNum(n: int)
    ensures ParseIntOf(Num(n)) == Finite(n)
  {
    ParseIntOfIntToString(n);
  }

  /** A single argument is the count, with offset 0. */
  lemma {:induction false} LimitSingleArgument(p: Page, count: Val)
    requires !count.Undefined?
    ensures Limit(p, count, Undefined) == Limit(p, Num(0), count)
  {
  }

  /**
   * While no count is set the new count is the parsed one clamped at 0;
   * once one is set a new count can only lower it; the offset grows by the
   * parsed offset.
   */
  lemma {:induction false} LimitNarrows(p: Page, offset: int, count: int)
    ensures var q := Limit(p, Num(offset), Num(count));
            (!NumTruthy(p.count) ==> q.count == Finite(if count < 0 then 0 else count)) &&
            (NumTruthy(p.count) ==> q.count.Finite? && q.count.n <= p.count.n && q.count.n <= count) &&
            (p.offset.Finite? ==> q.offset == Finite(p.offset.n + offset))
  {
    ParseIntOfNum(offset);
    ParseIntOfNum(count);
  }

  /** `limit(5, 10)` and then `limit(0, 3)` leave count 3 and offset 5. */
  lemma {:induction false} LimitExample()
    ensures Limit(Limit(NoPage, Num(5), Num(10)), Num(0), Num(3)) == Page(Finite(3), Finite(5))
  {
    ParseIntOfNum(5);
    ParseIntOfNum(10);
    ParseIntOfNum(0);
    ParseIntOfNum(3);
  }

  /** A count that does not parse poisons the page: every later count and offset stays NaN. */
  lemma {:induction false} LimitNaN(p: Page, offsetArg: Val, countArg: Val)
    requires p.count.NaN? && p.offset.NaN?
    requires ParseIntOf(if countArg.Undefined? then offsetArg else countArg).NaN?
    ensures Limit(p, offsetArg, countArg) == p
  {
  }

  // ---------------------------------------------------------------------
  // ORDER BY entries and the order a join forces

  /** A formatting function of an ORDER BY entry: the caller's, or one `__aggregateOrder__` looked up. */
  datatype Format = UserFormat(fn: Transform) | AggregateFormat(f: SqlClauses.AggregateFn)

  /** An `_orderBy` entry. */
  datatype OrderEntry = OrderEntry(columnName: string, direction: string, format: Option<Format>)

  /** The entry `join` adds when no entry orders by `id`. */
  const IdAscending: OrderEntry := OrderEntry("id", "ASC", None)

  /** The index of the first entry ordering by `id`. */
  function FirstId(os: seq<OrderEntry>): (r: Option<nat>)
    ensures r.Some? ==> r.value < |os| && os[r.value].columnName == "id"
    ensures r.Some? ==> forall j :: 0 <= j < r.value ==> os[j].columnName != "id"
    ensures r.None? ==> forall j :: 0 <= j < |os| ==> os[j].columnName != "id"
  {
    if |os| == 0 then None
    else if os[0].columnName == "id" then Some(0)
    else match FirstId(os[1..]) case Some(i) => Some(i + 1) case None => None
  }

  /** The order after `join`: the first `id` entry moved to the front, or `id ASC` prepended. */
  function IdFirst(os: seq<OrderEntry>): seq<OrderEntry>
  {
    match FirstId(os)
    case Some(i) => [os[i]] + os[..i] + os[i + 1..]
    case None => [IdAscending] + os
  }

  /**
   * After a join the first entry orders by `id`: the first such entry,
   * keeping its direction and format, or a new ascending one; behind it
   * come all other entries in their old order.
   */
  lemma {:induction false} IdFirstShape(os: seq<OrderEntry>)
    ensures var r := IdFirst(os);
            |r| > 0 && r[0].columnName == "id" &&
            (FirstId(os).Some? ==> r[0] == os[FirstId(os).value] && r[1..] == os[..FirstId(os).value] + os[FirstId(os).value + 1..]) &&
            (FirstId(os).None? ==> r[0] == IdAscending && r[1..] == os)
  {
    match FirstId(os)
    case Some(i) =>
      var r := [os[i]] + os[..i] + os[i + 1..];
      assert r[1..] == os[..i] + os[i + 1..];
    case None =>
      assert ([IdAscending] + os)[1..] == os;
  }

  /** Nothing is lost or duplicated: the new order is a permutation of the old one, plus `id ASC` if it had no `id`. */
  lemma {:induction false} IdFirstPermutes(os: seq<OrderEntry>)
    ensures FirstId(os).Some? ==> multiset(IdFirst(os)) == multiset(os)
    ensures FirstId(os).None? ==> multiset(IdFirst(os)) == multiset(os) + multiset{IdAscending}
  {
    if FirstId(os).Some? {
      MoveToFront(os, FirstId(os).value);
    }
  }

  lemma {:induction false} MoveToFront<T>(s: seq<T>, i: nat)
    requires i < |s|
    ensures multiset([s[i]] + s[..i] + s[i + 1..]) == multiset(s)
  {
    assert s == s[..i] + [s[i]] + s[i + 1..];
  }

  /** A second join leaves the order alone. */
  lemma {:induction false} IdFirstIdempotent(os: seq<OrderEntry>)
    ensures IdFirst(IdFirst(os)) == IdFirst(os)
  {
    var r := IdFirst(os);
    IdFirstShape(os);
    assert FirstId(r) == Some(0);
    assert r == [r[0]] + r[..0] + r[1..];
  }

  /** `{'asc': 'ASC', 'desc': 'DESC'}[(direction + '').toLowerCase()] || 'ASC'`. */
  function DirectionOf(direction: Val): (r: string)
    ensures r == "ASC" || r == "DESC"
  {
    var d := ToLowerAscii(ToStr(direction));
    if d == "desc" then "DESC" else "ASC"
  }

  /** `desc` spelt in any mix of cases gives DESC. */
  lemma {:induction false} DescAnyCase(s: string)
    requires |s| == 4 && s[0] in "dD" && s[1] in "eE" && s[2] in "sS" && s[3] in "cC"
    ensures DirectionOf(Str(s)) == "DESC"
  {
    var t := ToLowerAscii(s);
    assert t[0] == 'd' && t[1] == 'e' && t[2] == 's' && t[3] == 'c' by {
      LowerAt(s, 0);
      LowerAt(s, 1);
      LowerAt(s, 2);
      LowerAt(s, 3);
    }
    assert t == "desc";
  }

  lemma {:induction false} LowerAt(s: string, i: nat)
    requires i < |s|
    ensures ToLowerAscii(s)[i] == if 'A' <= s[i] <= 'Z' then ((s[i] as int) + 32) as char else s[i]
  {
    if i > 0 {
      LowerAt(s[1..], i - 1);
    }
  }

  /** A missing direction, and anything that does not lower-case to `desc`, gives ASC. */
  lemma {:induction false} AscByDefault(direction: Val)
    ensures DirectionOf(Undefined) == "ASC"
    ensures ToLowerAscii(ToStr(direction)) != "desc" ==> DirectionOf(direction) == "ASC"
  {
    assert ToLowerAscii("undefined")[0] == 'u' by {
      LowerAt("undefined", 0);
    }
  }

  /** The `aggregateBy` entry of a column; a missing one reads `undefined`. */
  function AggregatorOf(m: ModelDef, column: string): SqlClauses.Aggregator
  {
    if column in m.aggregateBy then m.aggregateBy[column] else SqlClauses.Named("undefined")
  }

  /** One entry after `__aggregateOrder__`: an entry without format gets the column's aggregate. */
  function AggregateEntry(m: ModelDef, o: OrderEntry): (r: OrderEntry)
    ensures r.columnName == o.columnName && r.direction == o.direction && r.format.Some?
    ensures o.format.Some? ==> r == o
  {
    if o.format.Some? then o else o.(format := Some(AggregateFormat(SqlClauses.AggregateOf(AggregatorOf(m, o.columnName)))))
  }

  function AggregateEntries(m: ModelDef, os: seq<OrderEntry>): (r: seq<OrderEntry>)
    ensures |r| == |os|
    ensures forall i :: 0 <= i < |os| ==> r[i] == AggregateEntry(m, os[i])
  {
    seq(|os|, i requires 0 <= i < |os| => AggregateEntry(m, os[i]))
  }

  /**
   * `__aggregateOrder__`: once the query groups (an empty `_groupBy` array
   * counts), every entry without format is given its column's aggregate.
   */
  function AggregateOrder(m: ModelDef, grouped: bool, os: seq<OrderEntry>): (r: seq<OrderEntry>)
    ensures |r| == |os|
    ensures !grouped ==> r == os
    ensures grouped ==> forall i :: 0 <= i < |os| ==> r[i].columnName == os[i].columnName && r[i].format.Some?
  {
    if |os| > 0 && grouped then AggregateEntries(m, os) else os
  }

  // ---------------------------------------------------------------------
  // GROUP BY entries

  /** A `_groupBy` entry: the tables (`None` for the model's own) and the columns. */
  datatype GroupEntry = GroupEntry(tables: seq<Option<string>>, columns: seq<string>, format: Option<Transform>)

  /** The one-column entries `groupByRelationship` adds, one per column of the related model. */
  function RelationGroups(table: string, columns: seq<string>): (r: seq<GroupEntry>)
    ensures |r| == |columns|
    ensures forall i :: 0 <= i < |r| ==> r[i] == GroupEntry([Some(table)], [columns[i]], None)
  {
    if |columns| == 0 then []
    else RelationGroups(table, columns[..|columns| - 1]) + [GroupEntry([Some(table)], [columns[|columns| - 1]], None)]
  }

  /** The relationship of that name, if the model has it (`__getRelationship__`; a blank name has none). */
  function RelationshipNamed(m: ModelDef, name: string): Option<Relation>
  {
    if name != "" && name in m.joins then Some(m.joins[name]) else None
  }

  /**
   * One column of `__parseColumns__`: `rel__column` names a related
   * model's column; anything else (a blank relationship part included)
   * names a column of the model itself.
   */
  function ParseColumn(m: ModelDef, c: string): Result<(Option<string>, string)>
  {
    var parts := Split(c, "__");
    var relName := if |parts| > 1 then parts[0] else "";
    var column := if |parts| > 1 then Join(parts[1..], "__") else c;
    if relName != "" then
      match RelationshipNamed(m, relName)
      case None => Err("Model has no relationship \"" + relName + "\"")
      case Some(rel) =>
        if column in rel.columnNames then Ok((Some(rel.table), column))
        else Err("Model relationship \"" + relName + "\" has no column \"" + column + "\"")
    else if column in m.columnNames then Ok((None, column))
    else Err("Model has no column \"" + column + "\"")
  }

  /** `__parseColumns__`: the tables and column names, or the first column's error. */
  function ParseColumns(m: ModelDef, cs: seq<string>): (r: Result<(seq<Option<string>>, seq<string>)>)
    ensures r.Ok? ==> |r.value.0| == |cs| && |r.value.1| == |cs|
    ensures r.Ok? <==> forall i :: 0 <= i < |cs| ==> ParseColumn(m, cs[i]).Ok?
    ensures r.Ok? ==> forall i :: 0 <= i < |cs| ==> (r.value.0[i], r.value.1[i]) == ParseColumn(m, cs[i]).value
  {
    if |cs| == 0 then Ok(([], []))
    else
      match ParseColumn(m, cs[0])
      case Err(e) => Err(e)
      case Ok(first) =>
        match ParseColumns(m, cs[1..])
        case Err(e) => Err(e)
        case Ok(rest) => Ok(([first.0] + rest.0, [first.1] + rest.1))
  }

  /** `s` does not contain `__`. */
  ghost predicate DunderFree(s: string)
  {
    forall j :: !OccursAt(s, "__", j)
  }

  /** `s` can stand before a `__` separator: no `__` inside and no `_` at its end. */
  ghost predicate Head(s: string)
  {
    DunderFree(s) && (|s| == 0 || s[|s| - 1] != '_')
  }

  /** Splitting `a__b` at `__`. */
  lemma {:induction false} SplitPair(a: string, b: string)
    requires Head(a) && DunderFree(b)
    ensures Split(a + "__" + b, "__") == [a, b]
  {
    var s := a + "__" + b;
    forall j: nat | j < |a| ensures !OccursAt(s, "__", j) {
      if j + 2 <= |a| {
        assert s[j..j + 2] == a[j..j + 2];
        assert !OccursAt(a, "__", j);
      } else {
        assert s[j + 1] == '_' && s[j] == a[j];
      }
    }
    assert s[|a|..|a| + 2] == "__";
    assert OccursAt(s, "__", |a|);
    var found := IndexOfFrom(s, "__", 0);
    assert found == Some(|a|);
    assert s[..|a|] == a && s[|a| + 2..] == b;
    SplitNoSeparator(b, "__");
  }

  /** A column of the model itself, without `__`, parses to itself with no table. */
  lemma {:induction false} ParseOwnColumn(m: ModelDef, c: string)
    requires c in m.columnNames && DunderFree(c)
    ensures ParseColumn(m, c) == Ok((None, c))
  {
    SplitNoSeparator(c, "__");
  }

  /** `rel__column` parses to the related table and the column, or names the missing column. */
  lemma {:induction false} ParseRelatedColumn(m: ModelDef, relName: string, column: string)
    requires relName in m.joins && relName != "" && Head(relName) && DunderFree(column)
    ensures var rel := m.joins[relName];
            ParseColumn(m, relName + "__" + column) ==
            if column in rel.columnNames then Ok((Some(rel.table), column))
            else Err("Model relationship \"" + relName + "\" has no column \"" + column + "\"")
  {
    SplitPair(relName, column);
    assert [relName, column][1..] == [column];
  }

  /** A relationship the model lacks is an error, whatever column follows. */
  lemma {:induction false} ParseUnknownRelationship(m: ModelDef, relName: string, column: string)
    requires relName !in m.joins && relName != "" && Head(relName) && DunderFree(column)
    ensures ParseColumn(m, relName + "__" + column) == Err("Model has no relationship \"" + relName + "\"")
  {
    SplitPair(relName, column);
  }

  /** The first argument of `groupBy`: a formatting function (with its parameter names), one name, or a list of names. */
  datatype GroupArg = FnArg(params: seq<string>, fn: Transform) | NameArg(name: string) | ListArg(names: seq<string>)

  /**
   * The `_groupBy` list after `groupBy(columns, formatFunc)`: a relationship
   * name adds one entry per column of the related model; otherwise the
   * columns are parsed (a bad one throws) and one entry is added, formatted
   * by the function argument if there is one.
   */
  function GroupBy(m: ModelDef, groupBy: Option<seq<GroupEntry>>, arg: GroupArg, format: Option<Transform>): (r: Result<seq<GroupEntry>>)
    ensures r.Ok? ==> |r.value| >= |groupBy.GetOr([])| && r.value[..|groupBy.GetOr([])|] == groupBy.GetOr([])
  {
    var before := groupBy.GetOr([]);
    if arg.NameArg? && RelationshipNamed(m, arg.name).Some? then
      var rel := RelationshipNamed(m, arg.name).value;
      Ok(before + RelationGroups(rel.table, rel.columnNames))
    else
      var columns := match arg case FnArg(ps, _) => ps case NameArg(n) => [n] case ListArg(ns) => ns;
      var fmt := if arg.FnArg? then Some(arg.fn) else format;
      match ParseColumns(m, columns)
      case Err(e) => Err(e)
      case Ok(parsed) => Ok(before + [GroupEntry(parsed.0, parsed.1, fmt)])
  }

  /**
   * Every entry `groupBy` adds groups by existing columns: a table-less
   * column is the model's own, a column with a table belongs to a
   * relationship of the model whose table that is.
   */
  lemma {:induction false} GroupByColumnsExist(m: ModelDef, groupBy: Option<seq<GroupEntry>>, arg: GroupArg, format: Option<Transform>, k: nat, j: nat)
    requires GroupBy(m, groupBy, arg, format).Ok?
    requires |groupBy.GetOr([])| <= k < |GroupBy(m, groupBy, arg, format).value|
    requires j < |GroupBy(m, groupBy, arg, format).value[k].columns|
    ensures var e := GroupBy(m, groupBy, arg, format).value[k];
            |e.tables| == |e.columns| &&
            (e.tables[j].None? ==> e.columns[j] in m.columnNames) &&
            (e.tables[j].Some? ==> exists name :: name in m.joins && m.joins[name].table == e.tables[j].value && e.columns[j] in m.joins[name].columnNames)
  {
    var before := groupBy.GetOr([]);
    var r := GroupBy(m, groupBy, arg, format).value;
    if arg.NameArg? && RelationshipNamed(m, arg.name).Some? {
      var rel := m.joins[arg.name];
      var added := RelationGroups(rel.table, rel.columnNames);
      assert r[k] == added[k - |before|];
      assert arg.name in m.joins && m.joins[arg.name].table == rel.table;
    } else {
      var columns := match arg case FnArg(ps, _) => ps case NameArg(n) => [n] case ListArg(ns) => ns;
      var parsed := ParseColumns(m, columns).value;
      assert k == |before|;
      assert r[k].tables == parsed.0 && r[k].columns == parsed.1;
      ParsedColumnExists(m, columns[j]);
    }
  }

  lemma {:induction false} ParsedColumnExists(m: ModelDef, c: string)
    requires ParseColumn(m, c).Ok?
    ensures var p := ParseColumn(m, c).value;
            (p.0.None? ==> p.1 in m.columnNames) &&
            (p.0.Some? ==> exists name :: name in m.joins && m.joins[name].table == p.0.value && p.1 in m.joins[name].columnNames)
  {
    var parts := Split(c, "__");
    if |parts| > 1 && parts[0] != "" {
      assert parts[0] in m.joins;
    }
  }

  /** `aggregate()` leaves an empty `_groupBy`, on which `orderBy` always throws. */
  lemma {:induction false} AggregateRefusesOrder(m: ModelDef, field: string, direction: Val, format: Option<Transform>)
    ensures OrderBy(m, Some([]), [], field, direction, format).Err?
  {
  }

  // ---------------------------------------------------------------------
  // Joined-column aliases

  /** `getJoinedAlias`: `$$join$column` for a multiple child relationship, else `$join$column`. */
  function AliasFor(rel: Relation, joinName: string, column: string): string
  {
    (if rel.child && rel.multiple then "$$" else "$") + joinName + "$" + column
  }

  /** Aliases of one join differ exactly when the columns do. */
  lemma {:induction false} AliasInjective(rel: Relation, joinName: string, a: string, b: string)
    requires AliasFor(rel, joinName, a) == AliasFor(rel, joinName, b)
    ensures a == b
  {
    var prefix := (if rel.child && rel.multiple then "$$" else "$") + joinName + "$";
    assert AliasFor(rel, joinName, a) == prefix + a;
    assert AliasFor(rel, joinName, b) == prefix + b;
    assert a == (prefix + a)[|prefix|..];
    assert b == (prefix + b)[|prefix|..];
  }

  /** The `_joinArray` record `join` pushes. */
  datatype JoinRecord = JoinRecord(table: string, field: string, baseField: string)

  function JoinRecordOf(rel: Relation): (r: JoinRecord)
    ensures rel.child ==> r.field == rel.via && r.baseField == "id"
    ensures !rel.child ==> r.field == "id" && r.baseField == rel.via
    ensures r.table == rel.table
  {
    if rel.child then JoinRecord(rel.table, rel.via, "id") else JoinRecord(rel.table, "id", rel.via)
  }

  /**
   * A `_joinedAlias` entry. The entry JavaScript stores also records the
   * column's `type`; no modelled operation reads it, so it is left out.
   */
  datatype AliasInfo = AliasInfo(table: string, relationship: string, alias: string, column: string)

  /** The aliases `join` appends to `_columns`, one per column of the joined model, in column order. */
  function JoinAliases(rel: Relation, joinName: string, columns: seq<string>): (r: seq<string>)
    ensures |r| == |columns|
    ensures forall i :: 0 <= i < |columns| ==> r[i] == AliasFor(rel, joinName, columns[i])
  {
    if |columns| == 0 then [] else JoinAliases(rel, joinName, columns[..|columns| - 1]) + [AliasFor(rel, joinName, columns[|columns| - 1])]
  }

  /** `_joinedAlias` after recording the aliases of `columns`, one after another. */
  function AliasEntries(rel: Relation, joinName: string, columns: seq<string>, base: map<string, AliasInfo>): map<string, AliasInfo>
  {
    if |columns| == 0 then base
    else
      var c := columns[|columns| - 1];
      var a := AliasFor(rel, joinName, c);
      AliasEntries(rel, joinName, columns[..|columns| - 1], base)[a := AliasInfo(rel.table, joinName, a, c)]
  }

  /**
   * Every column's alias is recorded with that column and the joined table;
   * every other alias keeps its old entry.
   */
  lemma {:induction false} AliasEntriesRecord(rel: Relation, joinName: string, columns: seq<string>, base: map<string, AliasInfo>, k: nat)
    requires k < |columns|
    ensures var a := AliasFor(rel, joinName, columns[k]);
            var r := AliasEntries(rel, joinName, columns, base);
            a in r && r[a] == AliasInfo(rel.table, joinName, a, columns[k])
  {
    var n := |columns|;
    var last := columns[n - 1];
    if k < n - 1 {
      AliasEntriesRecord(rel, joinName, columns[..n - 1], base, k);
      assert columns[..n - 1][k] == columns[k];
      if AliasFor(rel, joinName, last) == AliasFor(rel, joinName, columns[k]) {
        AliasInjective(rel, joinName, last, columns[k]);
      }
    }
  }

  lemma {:induction false} AliasEntriesKeep(rel: Relation, joinName: string, columns: seq<string>, base: map<string, AliasInfo>, a: string)
    requires forall i :: 0 <= i < |columns| ==> AliasFor(rel, joinName, columns[i]) != a
    ensures var r := AliasEntries(rel, joinName, columns, base);
            (a in r <==> a in base) && (a in base ==> r[a] == base[a])
  {
    if |columns| > 0 {
      AliasEntriesKeep(rel, joinName, columns[..|columns| - 1], base, a);
    }
  }

  // ---------------------------------------------------------------------
  // Filter objects

  /** A key of a filter object and its value; a filter object lists them in key order. */
  datatype Entry = Entry(key: string, value: Val)

  predicate DistinctKeys(obj: seq<Entry>)
  {
    forall i, j :: 0 <= i < j < |obj| ==> obj[i].key != obj[j].key
  }

  /** `obj[key]` when `obj` has that own key. */
  function Get(obj: seq<Entry>, key: string): (r: Option<Val>)
    ensures r.None? <==> forall i :: 0 <= i < |obj| ==> obj[i].key != key
  {
    if |obj| == 0 then None else if obj[0].key == key then Some(obj[0].value) else Get(obj[1..], key)
  }

  /** `obj[key] = v`: an existing key keeps its place, a new one goes last. */
  function Put(obj: seq<Entry>, key: string, v: Val): (r: seq<Entry>)
    ensures Get(r, key) == Some(v)
    ensures forall k :: k != key ==> Get(r, k) == Get(obj, k)
  {
    if |obj| == 0 then [Entry(key, v)]
    else if obj[0].key == key then [Entry(key, v)] + obj[1..]
    else [obj[0]] + Put(obj[1..], key, v)
  }

  /** `delete obj[key]`. */
  function Remove(obj: seq<Entry>, key: string): (r: seq<Entry>)
    ensures Get(r, key).None?
    ensures forall k :: k != key ==> Get(r, k) == Get(obj, k)
    ensures |r| <= |obj|
  {
    if |obj| == 0 then []
    else if obj[0].key == key then Remove(obj[1..], key)
    else [obj[0]] + Remove(obj[1..], key)
  }

  /** The keys naming a relationship, in key order. */
  function RelationKeys(m: ModelDef, obj: seq<Entry>): (r: seq<string>)
    ensures forall k :: k in r ==> k in m.joins
  {
    if |obj| == 0 then []
    else (if obj[0].key in m.joins then [obj[0].key] else []) + RelationKeys(m, obj[1..])
  }

  /**
   * The relationship rewrite of `__parseFilters__`: the value under each
   * relationship key must be a model instance; its `id` is stored under the
   * relationship's `via` key and the relationship key is deleted. Anything
   * else has no `get` method and throws.
   */
  function Rewrite(m: ModelDef, obj: seq<Entry>, keys: seq<string>): (r: Result<seq<Entry>>)
    requires forall k :: k in keys ==> k in m.joins
    decreases |keys|
  {
    if |keys| == 0 then Ok(obj)
    else
      var key := keys[0];
      match Get(obj, key)
      case Some(Inst(_, id)) => Rewrite(m, Remove(Put(obj, m.joins[key].via, id), key), keys[1..])
      case _ => Err("filterObj[filter].get is not a function")
  }

  /** One relationship key of the rewrite: an instance moves its `id` under `via`; anything else throws. */
  lemma {:induction false} RewriteStep(m: ModelDef, obj: seq<Entry>, keys: seq<string>)
    requires |keys| > 0 && forall k :: k in keys ==> k in m.joins
    ensures var v := Get(obj, keys[0]);
            (v.Some? && v.value.Inst? ==>
               Rewrite(m, obj, keys) == Rewrite(m, Remove(Put(obj, m.joins[keys[0]].via, v.value.id), keys[0]), keys[1..])) &&
            (!(v.Some? && v.value.Inst?) ==> Rewrite(m, obj, keys) == Err("filterObj[filter].get is not a function"))
  {
  }

  /** A parsed filter: the joined table (`None` for the model's own), the column, comparator and value. */
  datatype CFilter = CFilter(table: Option<string>, columnName: string, comparator: Comparator, value: Val)

  /** The `joined` relationship of the last ancestor builder that has joined `joinName`. */
  function LastJoined(ancestors: seq<map<string, Relation>>, joinName: string): (r: Option<Relation>)
    ensures r.Some? ==> exists i :: 0 <= i < |ancestors| && joinName in ancestors[i] && r.value == ancestors[i][joinName]
    ensures r.None? ==> forall i :: 0 <= i < |ancestors| ==> joinName !in ancestors[i]
  {
    if |ancestors| == 0 then None
    else if joinName in ancestors[|ancestors| - 1] then Some(ancestors[|ancestors| - 1][joinName])
    else LastJoined(ancestors[..|ancestors| - 1], joinName)
  }

  /** The comparator a key names: the last `__` segment when there are at least two, else `is`. */
  function ComparatorPart(segments: seq<string>): string
  {
    if |segments| > 1 then segments[|segments| - 1] else "is"
  }

  /** The column part: the segments left after the comparator is taken off, re-joined by `__`. */
  function ColumnPart(segments: seq<string>): string
  {
    Join(if |segments| > 1 then segments[..|segments| - 1] else segments, "__")
  }

  function Finish(table: Option<string>, segments: seq<string>, v: Val): Option<CFilter>
  {
    match ComparatorNamed(ComparatorPart(segments))
    case None => None
    case Some(c) => Some(CFilter(table, ColumnPart(segments), c, v))
  }

  /**
   * One key of `__parseFilters__`. A key whose first `__` segment names a
   * relationship must go on with a column of the related model; that column
   * becomes the alias an ancestor builder joined it under, or else the
   * filter carries the related table. Any other key must name a column of
   * the model once the comparator is taken off. Keys that fail either test,
   * and keys with an unknown comparator, give `None`.
   */
  function ParseEntry(m: ModelDef, ancestors: seq<map<string, Relation>>, e: Entry): Option<CFilter>
  {
    var segments := Split(e.key, "__");
    if segments[0] in m.joins then
      var joinName := segments[0];
      var rel := m.joins[joinName];
      var rest := segments[1..];
      if |rest| == 0 || rest[0] !in rel.columnNames then None
      else
        match LastJoined(ancestors, joinName)
        case Some(joined) => Finish(None, [AliasFor(joined, joinName, rest[0])] + rest[1..], e.value)
        case None => Finish(Some(rel.table), rest, e.value)
    else if ColumnPart(segments) !in m.columnNames then None
    else Finish(None, segments, e.value)
  }

  /** The surviving parsed filters, in key order. */
  function ParseEntries(m: ModelDef, ancestors: seq<map<string, Relation>>, obj: seq<Entry>): (r: seq<CFilter>)
    ensures |r| <= |obj|
  {
    if |obj| == 0 then []
    else
      (match ParseEntry(m, ancestors, obj[0]) case Some(f) => [f] case None => []) + ParseEntries(m, ancestors, obj[1..])
  }

  /**
   * A key naming a column of the model itself (no relationship, no `__`
   * inside the column) with a comparator suffix parses to that column and
   * comparator, and without a suffix to `is`.
   */
  lemma {:induction false} ParseOwnKey(m: ModelDef, ancestors: seq<map<string, Relation>>, column: string, c: Comparator, v: Val)
    requires column in m.columnNames && column !in m.joins && Head(column)
    requires DunderFree(ComparatorName(c))
    ensures ParseEntry(m, ancestors, Entry(column + "__" + ComparatorName(c), v)) == Some(CFilter(None, column, c, v))
    ensures ParseEntry(m, ancestors, Entry(column, v)) == Some(CFilter(None, column, Is, v))
  {
    SplitPair(column, ComparatorName(c));
    assert [column, ComparatorName(c)][..1] == [column];
    ComparatorNameRoundTrip(c);
    SplitNoSeparator(column, "__");
    ComparatorNameRoundTrip(Is);
  }

  /** A key of an unknown column of the model is dropped. */
  lemma {:induction false} ParseUnknownColumn(m: ModelDef, ancestors: seq<map<string, Relation>>, column: string, c: Comparator, v: Val)
    requires column !in m.columnNames && column !in m.joins && Head(column)
    requires DunderFree(ComparatorName(c))
    ensures ParseEntry(m, ancestors, Entry(column + "__" + ComparatorName(c), v)).None?
    ensures DunderFree(column) ==> ParseEntry(m, ancestors, Entry(column, v)).None?
  {
    SplitPair(column, ComparatorName(c));
    assert [column, ComparatorName(c)][..1] == [column];
    SplitNoSeparator(column, "__");
  }

  /**
   * `rel__column__cmp` on a relationship no ancestor builder joined
   * filters the related table's column; after an ancestor joined it, the
   * filter names the joined alias instead.
   */
  lemma {:induction false} ParseRelatedKey(m: ModelDef, ancestors: seq<map<string, Relation>>, joinName: string, column: string, c: Comparator, v: Val)
    requires joinName in m.joins && Head(joinName) && column in m.joins[joinName].columnNames && Head(column)
    requires DunderFree(ComparatorName(c))
    ensures var key := joinName + "__" + column + "__" + ComparatorName(c);
            var rel := m.joins[joinName];
            ParseEntry(m, ancestors, Entry(key, v)) ==
              match LastJoined(ancestors, joinName)
              case None => Some(CFilter(Some(rel.table), column, c, v))
              case Some(joined) => Some(CFilter(None, AliasFor(joined, joinName, column), c, v))
  {
    var key := joinName + "__" + column + "__" + ComparatorName(c);
    SplitTriple(joinName, column, ComparatorName(c));
    ParseRelatedSegments(m, ancestors, key, joinName, column, c, v);
  }

  lemma {:induction false} ParseRelatedSegments(m: ModelDef, ancestors: seq<map<string, Relation>>, key: string, joinName: string, column: string, c: Comparator, v: Val)
    requires joinName in m.joins && column in m.joins[joinName].columnNames
    requires Split(key, "__") == [joinName, column, ComparatorName(c)]
    ensures var rel := m.joins[joinName];
            ParseEntry(m, ancestors, Entry(key, v)) ==
              match LastJoined(ancestors, joinName)
              case None => Some(CFilter(Some(rel.table), column, c, v))
              case Some(joined) => Some(CFilter(None, AliasFor(joined, joinName, column), c, v))
  {
    var name := ComparatorName(c);
    var segments := [joinName, column, name];
    assert segments[0] == joinName;
    var rest := segments[1..];
    assert rest == [column, name];
    ComparatorNameRoundTrip(c);
    match LastJoined(ancestors, joinName)
    case None =>
      FinishPair(Some(m.joins[joinName].table), column, c, v);
    case Some(joined) =>
      var alias := AliasFor(joined, joinName, column);
      assert [alias] + rest[1..] == [alias, name];
      FinishPair(None, alias, c, v);
  }

  lemma {:induction false} FinishPair(table: Option<string>, column: string, c: Comparator, v: Val)
    ensures Finish(table, [column, ComparatorName(c)], v) == Some(CFilter(table, column, c, v))
  {
    assert [column, ComparatorName(c)][..1] == [column];
    ComparatorNameRoundTrip(c);
  }

  lemma {:induction false} SplitTriple(a: string, b: string, c: string)
    requires Head(a) && Head(b) && DunderFree(c)
    ensures Split(a + "__" + b + "__" + c, "__") == [a, b, c]
  {
    var s := a + "__" + b + "__" + c;
    var tail := b + "__" + c;
    assert s == a + "__" + tail;
    forall j: nat | j < |a| ensures !OccursAt(s, "__", j) {
      if j + 2 <= |a| {
        assert s[j..j + 2] == a[j..j + 2];
        assert !OccursAt(a, "__", j);
      } else {
        assert s[j + 1] == '_' && s[j] == a[j];
      }
    }
    assert s[|a|..|a| + 2] == "__";
    assert OccursAt(s, "__", |a|);
    var found := IndexOfFrom(s, "__", 0);
    assert found == Some(|a|);
    assert s[..|a|] == a && s[|a| + 2..] == tail;
    SplitPair(b, c);
  }

  /**
   * The control keys `__order`, `__offset` and `__count` never become
   * filters: what follows their `__` names no comparator (as long as the
   * model has no relationship named by the empty string).
   */
  lemma {:induction false} ControlKeyDropped(m: ModelDef, ancestors: seq<map<string, Relation>>, name: string, v: Val)
    requires "" !in m.joins && name in ["order", "offset", "count"]
    ensures ParseEntry(m, ancestors, Entry("__" + name, v)).None?
  {
    ControlNameFree(name);
    SplitPair("", name);
    assert "" + "__" + name == "__" + name;
    ControlNameNoComparator(name);
    assert ["", name][..1] == [""];
  }

  lemma {:induction false} ControlNameFree(name: string)
    requires name in ["order", "offset", "count"]
    ensures DunderFree(name)
  {
    assert forall j :: 0 <= j < |name| ==> name[j] != '_';
    forall j: nat ensures !OccursAt(name, "__", j) {
      if j + 2 <= |name| {
        assert name[j..j + 2][0] == name[j];
      }
    }
  }

  lemma {:induction false} ControlNameNoComparator(name: string)
    requires name in ["order", "offset", "count"]
    ensures ComparatorNamed(name).None?
  {
    var r := ComparatorNamed(name);
    if r.Some? {
      ComparatorInitial(r.value);
    }
  }

  /** No comparator name starts with `o`, and the only one starting with `c` is `contains`. */
  lemma {:induction false} ComparatorInitial(c: Comparator)
    ensures var n := ComparatorName(c); |n| > 0 && n[0] != 'o' && (n[0] == 'c' ==> |n| == 8)
  {
  }

  // ---------------------------------------------------------------------
  // The control keys of a filter object

  /** The builder fields `__parseFilters__` changes through `orderBy` and `limit`. */
  datatype Knobs = Knobs(orderBy: seq<OrderEntry>, page: Page)

  /**
   * `orderBy(field, direction, formatFunc)`: refused on a standalone
   * aggregate query (an empty `_groupBy`), ignored for a field that is not a
   * column of the model, otherwise an entry is appended and the order is
   * re-aggregated.
   */
  function OrderBy(m: ModelDef, groupBy: Option<seq<GroupEntry>>, os: seq<OrderEntry>, field: string, direction: Val, format: Option<Transform>): (r: Result<seq<OrderEntry>>)
    ensures r.Err? <==> groupBy == Some([])
    ensures r.Ok? && field !in m.columnNames ==> r.value == os
    ensures r.Ok? && field in m.columnNames ==>
              |r.value| == |os| + 1 && r.value[|os|].columnName == field && r.value[|os|].direction == DirectionOf(direction)
    ensures r.Ok? && field in m.columnNames && groupBy.None? ==>
              r.value == os + [OrderEntry(field, DirectionOf(direction), if format.Some? then Some(UserFormat(format.value)) else None)]
  {
    if groupBy == Some([]) then Err("Can not call .orderBy on a standalone aggregate query")
    else if field !in m.columnNames then Ok(os)
    else
      var entry := OrderEntry(field, DirectionOf(direction), if format.Some? then Some(UserFormat(format.value)) else None);
      Ok(AggregateOrder(m, groupBy.Some?, os + [entry]))
  }

  /** `__order: 'field direction'` calls `orderBy` with the first two words; a non-string value has no `split` and throws. */
  function OrderControl(m: ModelDef, groupBy: Option<seq<GroupEntry>>, os: seq<OrderEntry>, obj: seq<Entry>): Result<seq<OrderEntry>>
  {
    match Get(obj, "__order")
    case None => Ok(os)
    case Some(Str(s)) =>
      var words := Split(s, " ");
      OrderBy(m, groupBy, os, words[0], if |words| > 1 then Str(words[1]) else Undefined, None)
    case Some(_) => Err("filterObj.__order.split is not a function")
  }

  /**
   * The `limit` call of `__parseFilters__`: by operator precedence it runs
   * only when `__offset` is absent and `__count` present, as
   * `limit(0, __count || 0)`.
   */
  function LimitControl(p: Page, obj: seq<Entry>): Page
  {
    if Get(obj, "__offset").None? && Get(obj, "__count").Some? then
      var count := Get(obj, "__count").value;
      Limit(p, Num(0), if Truthy(count) then count else Num(0))
    else p
  }

  /** With `__offset` present the page is left alone, whatever `__count` says. */
  lemma {:induction false} OffsetDisablesCount(p: Page, obj: seq<Entry>)
    requires Get(obj, "__offset").Some?
    ensures LimitControl(p, obj) == p
  {
  }

  /** What one `__parseFilters__` call leaves: the new order and page, and the filters or the error it threw. */
  datatype Parsed = Parsed(knobs: Knobs, result: Result<seq<CFilter>>)

  /**
   * `__parseFilters__(filterObj)`: `__order` first (an error there changes
   * nothing), then `limit`, then the relationship rewrite (an error there
   * keeps the order and page already set), then the keys in order.
   */
  function ParseFilters(m: ModelDef, groupBy: Option<seq<GroupEntry>>, ancestors: seq<map<string, Relation>>, k: Knobs, obj: seq<Entry>): (r: Parsed)
    ensures r.result.Ok? ==> r.knobs.page == LimitControl(k.page, obj)
  {
    match OrderControl(m, groupBy, k.orderBy, obj)
    case Err(e) => Parsed(k, Err(e))
    case Ok(os) =>
      var k2 := Knobs(os, LimitControl(k.page, obj));
      match Rewrite(m, obj, RelationKeys(m, obj))
      case Err(e) => Parsed(k2, Err(e))
      case Ok(rewritten) => Parsed(k2, Ok(ParseEntries(m, ancestors, rewritten)))
  }

  /** `__parseFilters__` once `__order` has been applied: the page follows, then the rewrite decides the outcome. */
  lemma {:induction false} ParseFiltersPieces(m: ModelDef, groupBy: Option<seq<GroupEntry>>, ancestors: seq<map<string, Relation>>, k: Knobs, obj: seq<Entry>, os: seq<OrderEntry>, rewritten: Result<seq<Entry>>)
    requires OrderControl(m, groupBy, k.orderBy, obj) == Ok(os)
    requires Rewrite(m, obj, RelationKeys(m, obj)) == rewritten
    ensures ParseFilters(m, groupBy, ancestors, k, obj) ==
              Parsed(Knobs(os, LimitControl(k.page, obj)), if rewritten.Err? then Err(rewritten.message) else Ok(ParseEntries(m, ancestors, rewritten.value)))
  {
  }

  /** An `__order` that cannot be applied stops `__parseFilters__` before anything changes. */
  lemma {:induction false} ParseFiltersOrderFails(m: ModelDef, groupBy: Option<seq<GroupEntry>>, ancestors: seq<map<string, Relation>>, k: Knobs, obj: seq<Entry>)
    requires OrderControl(m, groupBy, k.orderBy, obj).Err?
    ensures ParseFilters(m, groupBy, ancestors, k, obj) == Parsed(k, Err(OrderControl(m, groupBy, k.orderBy, obj).message))
  {
  }

  /** What `filter` leaves after parsing all its filter objects. */
  datatype ParsedAll = ParsedAll(knobs: Knobs, result: Result<seq<seq<CFilter>>>)

  /** `filters.map(__parseFilters__)`, one object after another; the first error stops it. */
  function ParseAll(m: ModelDef, groupBy: Option<seq<GroupEntry>>, ancestors: seq<map<string, Relation>>, k: Knobs, objs: seq<seq<Entry>>): (r: ParsedAll)
    ensures r.result.Ok? ==> |r.result.value| == |objs|
  {
    if |objs| == 0 then ParsedAll(k, Ok([]))
    else
      var prev := ParseAll(m, groupBy, ancestors, k, objs[..|objs| - 1]);
      if prev.result.Err? then prev
      else
        var p := ParseFilters(m, groupBy, ancestors, prev.knobs, objs[|objs| - 1]);
        match p.result
        case Err(e) => ParsedAll(p.knobs, Err(e))
        case Ok(fs) => ParsedAll(p.knobs, Ok(prev.result.value + [fs]))
  }

  /** `.filter(f => f.length)`: the non-empty groups, in order. */
  function NonEmptyGroups(gs: seq<seq<CFilter>>): (r: seq<seq<CFilter>>)
    ensures forall i :: 0 <= i < |r| ==> |r[i]| > 0
    ensures forall g :: g in r <==> g in gs && |g| > 0
    ensures |r| <= |gs|
  {
    if |gs| == 0 then []
    else NonEmptyGroups(gs[..|gs| - 1]) + (if |gs[|gs| - 1]| > 0 then [gs[|gs| - 1]] else [])
  }
}

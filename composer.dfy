/**
 * The query builder. A `Composer` holds the state of one link of a query
 * chain: its filters, selected columns, ordering, grouping, joins and
 * pagination, plus the ancestor builders (`_query`) its filters refine.
 * Every method changes that state as the functions of `ComposerSpec` say.
 */
module QueryBuilder {
  import opened Wrappers
  import opened Strings
  import opened Values
  import opened SqlWhere
  import opened WhereJoin
  import opened ComposerSpec
  import opened ComposerChain
  import Rows

  /** The `_joined` maps of a chain of builders, in chain order. */
  function JoinedMaps(cs: seq<Composer>): (r: seq<map<string, Relation>>)
    reads cs`joined
    ensures |r| == |cs|
    ensures forall i :: 0 <= i < |cs| ==> r[i] == cs[i].joined
  {
    if |cs| == 0 then [] else JoinedMaps(cs[..|cs| - 1]) + [cs[|cs| - 1].joined]
  }

  /** The `_filters` of a chain of builders, in chain order. */
  function FiltersOf(cs: seq<Composer>): (r: seq<seq<seq<CFilter>>>)
    reads cs`filters
    ensures |r| == |cs|
    ensures forall i :: 0 <= i < |cs| ==> r[i] == cs[i].filters
  {
    if |cs| == 0 then [] else FiltersOf(cs[..|cs| - 1]) + [cs[|cs| - 1].filters]
  }

  /** `genTable(i)` for the links after the first; the first link uses its model's table. */
  function LinkTable(i: nat, modelTable: string): string
  {
    if i == 0 then modelTable else "t" + NatToString(i)
  }

  class Composer {
    const model: ModelDef
    var query: seq<Composer>
    var filters: seq<seq<CFilter>>
    var columns: seq<string>
    var orderBy: seq<OrderEntry>
    var groupBy: Option<seq<GroupEntry>>
    var joinArray: seq<JoinRecord>
    var joinedAlias: map<string, AliasInfo>
    var joined: map<string, Relation>
    var count: JsNumber
    var offset: JsNumber

    /** A builder refining the chain `query`: it selects the last link's columns, or the model's. */
    constructor (model: ModelDef, query: seq<Composer>)
      ensures this.model == model && this.query == query
      ensures columns == if |query| > 0 then query[|query| - 1].columns else model.columnNames
      ensures filters == [] && orderBy == [] && groupBy.None? && joinArray == []
      ensures joinedAlias == map[] && joined == map[]
      ensures count == Finite(0) && offset == Finite(0)
    {
      this.model := model;
      this.query := query;
      columns := if |query| > 0 then query[|query| - 1].columns else model.columnNames;
      filters := [];
      orderBy := [];
      groupBy := None;
      joinArray := [];
      joinedAlias := map[];
      joined := map[];
      count := Finite(0);
      offset := Finite(0);
    }

    /** `limit(offset, count)`. */
    method Limit(offsetArg: Val, countArg: Val)
      modifies this`count, this`offset
      ensures Page(count, offset) == ComposerSpec.Limit(old(Page(count, offset)), offsetArg, countArg)
    {
      var c := if countArg.Undefined? then offsetArg else countArg;
      var o := if countArg.Undefined? then Num(0) else offsetArg;
      var parsedCount := ParseIntOf(c);
      var parsedOffset := ParseIntOf(o);
      count := if NumTruthy(count) then NumMin(parsedCount, count) else NumMax(parsedCount, Finite(0));
      offset := NumAdd(offset, parsedOffset);
    }

    predicate HasJoined(joinName: string)
      reads this
    {
      joinName in joined
    }

    /**
     * `getJoinedAlias`: the alias of a joined column, named after the kind of
     * relationship the builder joined; for a name it has not joined, reading
     * the relationship's flags throws.
     */
    function GetJoinedAlias(joinName: string, column: string): (r: Result<string>)
      reads this
      ensures r.Ok? <==> HasJoined(joinName)
      ensures r.Ok? ==> r.value == AliasFor(joined[joinName], joinName, column)
    {
      if joinName in joined then Ok(AliasFor(joined[joinName], joinName, column))
      else Err("Cannot read property 'child' of undefined")
    }

    /** `setJoined`: records the model's relationship of that name, or throws if there is none. */
    method SetJoined(joinName: string) returns (r: Result<Relation>)
      modifies this`joined
      ensures joinName in model.joins ==> r == Ok(model.joins[joinName]) && joined == old(joined)[joinName := model.joins[joinName]]
      ensures joinName !in model.joins ==> r.Err? && joined == old(joined)
    {
      if joinName !in model.joins {
        return Err("Model has no join \"" + joinName + "\"");
      }
      joined := joined[joinName := model.joins[joinName]];
      r := Ok(model.joins[joinName]);
    }

    /**
     * `join(joinName)`: records the relationship and its join, selects every
     * column of the joined model under its alias, and puts an `id` entry
     * first in the order.
     */
    method Join(joinName: string) returns (r: Outcome)
      modifies this
      ensures joinName !in model.joins ==> r.Fail? && unchanged(this)
      ensures joinName in model.joins ==>
                var rel := model.joins[joinName];
                r.Pass? &&
                joined == old(joined)[joinName := rel] &&
                joinArray == old(joinArray) + [JoinRecordOf(rel)] &&
                columns == old(columns) + JoinAliases(rel, joinName, rel.columnNames) &&
                joinedAlias == AliasEntries(rel, joinName, rel.columnNames, old(joinedAlias)) &&
                orderBy == IdFirst(old(orderBy))
      ensures query == old(query) && filters == old(filters) && groupBy == old(groupBy)
      ensures count == old(count) && offset == old(offset)
    {
      var found := SetJoined(joinName);
      if found.Err? {
        return Fail(found.message);
      }
      var rel := found.value;
      joinArray := joinArray + [JoinRecordOf(rel)];
      SelectJoined(rel, joinName);
      IdFirstOrder();
      r := Pass;
    }

    /** The column loop of `join`: every column of the joined model is selected and recorded under its alias. */
    method SelectJoined(rel: Relation, joinName: string)
      modifies this`columns, this`joinedAlias
      ensures columns == old(columns) + JoinAliases(rel, joinName, rel.columnNames)
      ensures joinedAlias == AliasEntries(rel, joinName, rel.columnNames, old(joinedAlias))
    {
      var names := rel.columnNames;
      var i := 0;
      while i < |names|
        invariant 0 <= i <= |names|
        invariant columns == old(columns) + JoinAliases(rel, joinName, names[..i])
        invariant joinedAlias == AliasEntries(rel, joinName, names[..i], old(joinedAlias))
      {
        var alias := AliasFor(rel, joinName, names[i]);
        joinedAlias := joinedAlias[alias := AliasInfo(rel.table, joinName, alias, names[i])];
        columns := columns + [alias];
        assert names[..i + 1][..i] == names[..i];
        i := i + 1;
      }
      assert names[..i] == names;
    }

    /** The order loop of `join`: the first `id` entry is spliced out and put first, or `id ASC` is. */
    method IdFirstOrder()
      modifies this`orderBy
      ensures orderBy == IdFirst(old(orderBy))
    {
      var os := orderBy;
      var k := 0;
      while k < |os| && os[k].columnName != "id"
        invariant 0 <= k <= |os|
        invariant forall j :: 0 <= j < k ==> os[j].columnName != "id"
      {
        k := k + 1;
      }
      if k < |os| {
        orderBy := [os[k]] + os[..k] + os[k + 1..];
      } else {
        orderBy := [IdAscending] + os;
      }
    }

    /** `__aggregateOrder__`: once grouped, entries without a format take their column's aggregate. */
    method AggregateOrder()
      modifies this`orderBy
      ensures orderBy == ComposerSpec.AggregateOrder(model, groupBy.Some?, old(orderBy))
    {
      if |orderBy| > 0 && groupBy.Some? {
        var os := orderBy;
        var i := 0;
        while i < |os|
          invariant 0 <= i <= |os| && |os| == |old(orderBy)|
          invariant forall k :: 0 <= k < i ==> os[k] == AggregateEntry(model, old(orderBy)[k])
          invariant forall k :: i <= k < |os| ==> os[k] == old(orderBy)[k]
        {
          if os[i].format.None? {
            var f := SqlClauses.AggregateOf(AggregatorOf(model, os[i].columnName));
            os := os[i := os[i].(format := Some(AggregateFormat(f)))];
          }
          i := i + 1;
        }
        orderBy := os;
      }
    }

    /** `orderBy(field, direction, formatFunc)`. */
    method OrderBy(field: string, direction: Val, format: Option<Transform>) returns (r: Outcome)
      modifies this`orderBy
      ensures var s := ComposerSpec.OrderBy(model, groupBy, old(orderBy), field, direction, format);
              (r.Fail? <==> s.Err?) && (s.Err? ==> r == Fail(s.message)) &&
              orderBy == (if s.Ok? then s.value else old(orderBy))
    {
      ghost var s := ComposerSpec.OrderBy(model, groupBy, orderBy, field, direction, format);
      if groupBy == Some([]) {
        return Fail("Can not call .orderBy on a standalone aggregate query");
      }
      if field !in model.columnNames {
        return Pass;
      }
      var format' := if format.Some? then Some(UserFormat(format.value)) else None;
      orderBy := orderBy + [OrderEntry(field, DirectionOf(direction), format')];
      assert s == Ok(ComposerSpec.AggregateOrder(model, groupBy.Some?, orderBy));
      AggregateOrder();
      r := Pass;
    }

    /** `groupByRelationship(rel)`: one group per column of the related model. */
    method GroupByRelationship(rel: Relation)
      modifies this`groupBy, this`orderBy
      ensures groupBy == Some(old(groupBy).GetOr([]) + RelationGroups(rel.table, rel.columnNames))
      ensures orderBy == ComposerSpec.AggregateOrder(model, true, old(orderBy))
    {
      groupBy := Some(groupBy.GetOr([]) + RelationGroups(rel.table, rel.columnNames));
      AggregateOrder();
    }

    /** `groupBy(columns, formatFunc)`. */
    method GroupBy(arg: GroupArg, format: Option<Transform>) returns (r: Outcome)
      modifies this`groupBy, this`orderBy
      ensures var s := ComposerSpec.GroupBy(model, old(groupBy), arg, format);
              (r.Fail? <==> s.Err?) &&
              (s.Ok? ==> groupBy == Some(s.value) && orderBy == ComposerSpec.AggregateOrder(model, true, old(orderBy))) &&
              (s.Err? ==> groupBy == old(groupBy) && orderBy == old(orderBy))
    {
      if arg.NameArg? && RelationshipNamed(model, arg.name).Some? {
        GroupByRelationship(RelationshipNamed(model, arg.name).value);
        return Pass;
      }
      var names := match arg case FnArg(ps, _) => ps case NameArg(n) => [n] case ListArg(ns) => ns;
      var fmt := if arg.FnArg? then Some(arg.fn) else format;
      var parsed := ParseColumns(model, names);
      if parsed.Err? {
        return Fail(parsed.message);
      }
      groupBy := Some(groupBy.GetOr([]) + [GroupEntry(parsed.value.0, parsed.value.1, fmt)]);
      AggregateOrder();
      r := Pass;
    }

    /**
     * `__parseFilters__(filterObj)`: applies `__order` and `__count`, rewrites
     * relationship keys to their `via` columns, and parses the remaining keys
     * into filters.
     */
    method ParseFilters(obj: seq<Entry>) returns (r: Result<seq<CFilter>>)
      modifies this`orderBy, this`count, this`offset
      ensures var p := ComposerSpec.ParseFilters(model, groupBy, JoinedMaps(query), Knobs(old(orderBy), old(Page(count, offset))), obj);
              r == p.result && orderBy == p.knobs.orderBy && Page(count, offset) == p.knobs.page
    {
      ghost var start := Knobs(orderBy, Page(count, offset));
      var ancestors := JoinedMaps(query);
      ghost var p := ComposerSpec.ParseFilters(model, groupBy, ancestors, start, obj);
      var ordered := ApplyOrder(obj);
      if ordered.Fail? {
        ParseFiltersOrderFails(model, groupBy, ancestors, start, obj);
        return Err(ordered.message);
      }
      ghost var os := orderBy;
      ApplyPage(obj);
      var rewritten := RewriteRelations(obj);
      ParseFiltersPieces(model, groupBy, ancestors, start, obj, os, rewritten);
      if rewritten.Err? {
        return Err(rewritten.message);
      }
      r := Ok(ParseEntries(model, ancestors, rewritten.value));
    }

    /** The `limit` step of `__parseFilters__`: `limit(0, __count || 0)` when `__count` is given without `__offset`. */
    method ApplyPage(obj: seq<Entry>)
      modifies this`count, this`offset
      ensures Page(count, offset) == LimitControl(old(Page(count, offset)), obj)
    {
      if Get(obj, "__offset").None? && Get(obj, "__count").Some? {
        var c := Get(obj, "__count").value;
        Limit(Num(0), if Truthy(c) then c else Num(0));
      }
    }

    /** The `__order` step of `__parseFilters__`: `orderBy` with the value's first two words. */
    method ApplyOrder(obj: seq<Entry>) returns (r: Outcome)
      modifies this`orderBy
      ensures var o := OrderControl(model, groupBy, old(orderBy), obj);
              (r.Fail? <==> o.Err?) && (o.Err? ==> r == Fail(o.message)) &&
              orderBy == (if o.Ok? then o.value else old(orderBy))
    {
      var order := Get(obj, "__order");
      if order.None? {
        return Pass;
      }
      if !order.value.Str? {
        return Fail("filterObj.__order.split is not a function");
      }
      var words := Split(order.value.s, " ");
      r := OrderBy(words[0], if |words| > 1 then Str(words[1]) else Undefined, None);
    }

    /**
     * The relationship loop of `__parseFilters__`: each key naming one of the
     * model's relationships must hold a model instance, whose `id` replaces
     * it under the relationship's `via` column.
     */
    method RewriteRelations(obj: seq<Entry>) returns (r: Result<seq<Entry>>)
      ensures r == Rewrite(model, obj, RelationKeys(model, obj))
    {
      var keys := RelationKeys(model, obj);
      var current := obj;
      var i := 0;
      while i < |keys|
        invariant 0 <= i <= |keys|
        invariant Rewrite(model, obj, keys) == Rewrite(model, current, keys[i..])
      {
        var key := keys[i];
        var value := Get(current, key);
        RewriteStep(model, current, keys[i..]);
        if !(value.Some? && value.value.Inst?) {
          return Err("filterObj[filter].get is not a function");
        }
        current := Remove(Put(current, model.joins[key].via, value.value.id), key);
        assert keys[i..][1..] == keys[i + 1..];
        i := i + 1;
      }
      r := Ok(current);
    }

    /** Parses every filter object in turn; the first error stops it. */
    method ParseEach(objs: seq<seq<Entry>>) returns (r: Result<seq<seq<CFilter>>>)
      modifies this`orderBy, this`count, this`offset
      ensures var p := ParseAll(model, groupBy, JoinedMaps(query), Knobs(old(orderBy), old(Page(count, offset))), objs);
              r == p.result && orderBy == p.knobs.orderBy && Page(count, offset) == p.knobs.page
    {
      var ancestors := JoinedMaps(query);
      ghost var start := Knobs(orderBy, Page(count, offset));
      var groups: seq<seq<CFilter>> := [];
      var i := 0;
      while i < |objs|
        invariant 0 <= i <= |objs|
        invariant ancestors == JoinedMaps(query)
        invariant ParseAll(model, groupBy, ancestors, start, objs[..i]) == ParsedAll(Knobs(orderBy, Page(count, offset)), Ok(groups))
      {
        ghost var before := Knobs(orderBy, Page(count, offset));
        var parsed := ParseFilters(objs[i]);
        ParseAllStep(model, groupBy, ancestors, start, objs, i, before, groups);
        if parsed.Err? {
          ParseAllStops(model, groupBy, ancestors, start, objs, i + 1);
          return Err(parsed.message);
        }
        groups := groups + [parsed.value];
        i := i + 1;
      }
      assert objs[..i] == objs;
      r := Ok(groups);
    }

    /** Parses every filter object and, when all parse, keeps the non-empty groups as the builder's filters. */
    method SetFilters(objs: seq<seq<Entry>>) returns (r: Outcome)
      modifies this`filters, this`orderBy, this`count, this`offset
      ensures var p := ParseAll(model, groupBy, JoinedMaps(query), Knobs(old(orderBy), old(Page(count, offset))), objs);
              orderBy == p.knobs.orderBy && Page(count, offset) == p.knobs.page &&
              (r.Pass? <==> p.result.Ok?) &&
              filters == (if p.result.Ok? then NonEmptyGroups(p.result.value) else old(filters))
    {
      var parsed := ParseEach(objs);
      if parsed.Err? {
        return Fail(parsed.message);
      }
      filters := NonEmptyGroups(parsed.value);
      r := Pass;
    }

    /**
     * `filter(filters)`: on a builder without filters, parses the new ones
     * into it. On a builder that has filters, pushes it onto its own
     * `_query` and parses them into a new builder refining that chain.
     */
    method Filter(objs: seq<seq<Entry>>) returns (r: Result<Composer>)
      modifies this
      ensures old(|filters|) > 0 ==>
                query == old(query) + [this] && filters == old(filters) && orderBy == old(orderBy) &&
                count == old(count) && offset == old(offset) &&
                (r.Ok? <==> ParseAll(model, None, JoinedMaps(query), Knobs([], NoPage), objs).result.Ok?) &&
                (r.Ok? ==> var p := ParseAll(model, None, JoinedMaps(query), Knobs([], NoPage), objs);
                           fresh(r.value) && r.value.model == model && r.value.query == query &&
                           r.value.columns == columns && r.value.filters == NonEmptyGroups(p.result.value) &&
                           r.value.orderBy == p.knobs.orderBy && Page(r.value.count, r.value.offset) == p.knobs.page &&
                           r.value.groupBy.None? && r.value.joinArray == [] &&
                           r.value.joined == map[] && r.value.joinedAlias == map[])
      ensures old(|filters|) == 0 ==>
                var p := ParseAll(model, groupBy, JoinedMaps(query), Knobs(old(orderBy), old(Page(count, offset))), objs);
                query == old(query) && orderBy == p.knobs.orderBy && Page(count, offset) == p.knobs.page &&
                (r.Ok? <==> p.result.Ok?) && (r.Ok? ==> r.value == this) &&
                filters == (if p.result.Ok? then NonEmptyGroups(p.result.value) else old(filters))
      ensures columns == old(columns) && groupBy == old(groupBy) && joined == old(joined)
      ensures joinArray == old(joinArray) && joinedAlias == old(joinedAlias)
    {
      if |filters| > 0 {
        query := query + [this];
        var child := new Composer(model, query);
        assert JoinedMaps(child.query) == JoinedMaps(query);
        var parsed := child.SetFilters(objs);
        if parsed.Fail? {
          return Err(parsed.message);
        }
        return Ok(child);
      }
      var parsed := SetFilters(objs);
      if parsed.Fail? {
        return Err(parsed.message);
      }
      r := Ok(this);
    }

    /** `copy()`: a new builder with the same state. */
    method Copy() returns (c: Composer)
      ensures fresh(c) && c.model == model && c.query == query && c.filters == filters && c.columns == columns
      ensures c.orderBy == orderBy && c.groupBy == groupBy && c.joinArray == joinArray
      ensures c.joinedAlias == joinedAlias && c.joined == joined && c.count == count && c.offset == offset
    {
      c := new Composer(model, query);
      c.filters := filters;
      c.columns := columns;
      c.orderBy := orderBy;
      c.groupBy := groupBy;
      c.joinArray := joinArray;
      c.joinedAlias := joinedAlias;
      c.joined := joined;
      c.count := count;
      c.offset := offset;
    }

    /** `aggregate()`: a copy grouped by nothing and without order, which refuses `orderBy`. */
    method Aggregate() returns (c: Composer)
      ensures fresh(c) && c.model == model && c.query == query && c.filters == filters && c.columns == columns
      ensures c.groupBy == Some([]) && c.orderBy == []
      ensures c.joinArray == joinArray && c.joinedAlias == joinedAlias && c.joined == joined
      ensures c.count == count && c.offset == offset
    {
      c := Copy();
      c.groupBy := Some([]);
      c.orderBy := [];
    }

    /** The parameters `__toSQL__` binds for this link: those of its multi-filter over `table`. */
    method ToSqlParams(quote: string, table: string) returns (params: seq<Val>)
      ensures params == LinkParams(filters)
    {
      var multi := CreateMultiFilter(quote, table, AsGroups(filters));
      params := GetParams(multi);
      LinkParamsAgree(quote, table, filters);
    }

    /**
     * `__prepareQuery__`: the parameters of each link of `query + [this]`,
     * concatenated in chain order, each link numbering its placeholders from
     * the number of parameters before it; the query is grouped when some
     * link groups, and then returns no models.
     */
    method PrepareQuery(quote: string) returns (pq: Prepared)
      ensures var links := FiltersOf(query + [this]);
              pq.params == ChainParams(links) && |pq.offsets| == |links| &&
              (forall i :: 0 <= i < |links| ==> pq.offsets[i] == |ChainParams(links[..i])|)
      ensures pq.grouped <==> exists i :: 0 <= i < |query + [this]| && (query + [this])[i].groupBy.Some?
      ensures pq.models == !pq.grouped && pq.columns == columns
    {
      var chain := query + [this];
      var links := FiltersOf(chain);
      var params: seq<Val> := [];
      var offsets: seq<nat> := [];
      var i := 0;
      while i < |chain|
        invariant 0 <= i <= |chain|
        invariant params == ChainParams(links[..i])
        invariant |offsets| == i && forall k :: 0 <= k < i ==> offsets[k] == |ChainParams(links[..k])|
      {
        var linkParams := chain[i].ToSqlParams(quote, LinkTable(i, chain[i].model.table));
        ChainParamsSnoc(links, i);
        offsets := offsets + [|params|];
        params := params + linkParams;
        i := i + 1;
      }
      assert links[..i] == links;
      var grouped := AnyGrouped(chain);
      pq := Prepared(params, offsets, grouped, !grouped, columns);
    }

    /**
     * `__parseModelsFromRows__(rows)`: the rows are reduced one at a time,
     * with the model's relationships as the join constructors.
     */
    method ParseModelsFromRows(rows: seq<Rows.Row>) returns (r: Result<seq<Rows.Obj>>)
      ensures r == Rows.ParseModels(model.joins.Keys, rows)
    {
      if |rows| == 0 {
        return Ok([]);
      }
      if Rows.LookupFails(rows[0].Keys) {
        return Err("Cannot set property of undefined");
      }
      var l := Rows.Lookup(rows[0].Keys);
      var known := model.joins.Keys;
      var st := Rows.State([], Rows.InitSkeleton(l));
      var i := 0;
      while i < |rows|
        invariant i <= |rows|
        invariant Rows.Reduce(l, known, rows[..i]) == Ok(st)
      {
        assert rows[..i + 1][..i] == rows[..i];
        var next := Rows.Step(l, known, st, rows[i]);
        if next.Err? {
          Rows.ReduceStops(l, known, rows, i + 1);
          return Err(next.message);
        }
        st := next.value;
        i := i + 1;
      }
      assert rows[..i] == rows;
      r := Ok(st.objs);
    }
  }

  /** Whether some builder of the chain has a `_groupBy`. */
  method AnyGrouped(chain: seq<Composer>) returns (grouped: bool)
    ensures grouped <==> exists i :: 0 <= i < |chain| && chain[i].groupBy.Some?
  {
    grouped := false;
    var i := 0;
    while i < |chain|
      invariant 0 <= i <= |chain|
      invariant grouped <==> exists k :: 0 <= k < i && chain[k].groupBy.Some?
    {
      grouped := grouped || chain[i].groupBy.Some?;
      i := i + 1;
    }
  }

  /** One more filter object: `ParseAll` goes on from the order and page the previous ones left. */
  lemma {:induction false} ParseAllStep(m: ModelDef, groupBy: Option<seq<GroupEntry>>, ancestors: seq<map<string, Relation>>, k: Knobs, objs: seq<seq<Entry>>, i: nat, before: Knobs, groups: seq<seq<CFilter>>)
    requires i < |objs| && ParseAll(m, groupBy, ancestors, k, objs[..i]) == ParsedAll(before, Ok(groups))
    ensures var p := ComposerSpec.ParseFilters(m, groupBy, ancestors, before, objs[i]);
            ParseAll(m, groupBy, ancestors, k, objs[..i + 1]) ==
              if p.result.Err? then ParsedAll(p.knobs, Err(p.result.message)) else ParsedAll(p.knobs, Ok(groups + [p.result.value]))
  {
    assert objs[..i + 1][..i] == objs[..i];
  }

  /** Once `ParseAll` has failed on a prefix, it fails on every longer one. */
  lemma {:induction false} ParseAllStops(m: ModelDef, groupBy: Option<seq<GroupEntry>>, ancestors: seq<map<string, Relation>>, k: Knobs, objs: seq<seq<Entry>>, n: nat)
    requires n <= |objs| && ParseAll(m, groupBy, ancestors, k, objs[..n]).result.Err?
    ensures ParseAll(m, groupBy, ancestors, k, objs) == ParseAll(m, groupBy, ancestors, k, objs[..n])
  {
    if n < |objs| {
      var init := objs[..|objs| - 1];
      assert init[..n] == objs[..n];
      ParseAllStops(m, groupBy, ancestors, k, init, n);
      ParseAllErrLast(m, groupBy, ancestors, k, objs);
    } else {
      assert objs[..n] == objs;
    }
  }

  /** A failed prefix makes the whole list fail the same way. */
  lemma {:induction false} ParseAllErrLast(m: ModelDef, groupBy: Option<seq<GroupEntry>>, ancestors: seq<map<string, Relation>>, k: Knobs, objs: seq<seq<Entry>>)
    requires |objs| > 0 && ParseAll(m, groupBy, ancestors, k, objs[..|objs| - 1]).result.Err?
    ensures ParseAll(m, groupBy, ancestors, k, objs) == ParseAll(m, groupBy, ancestors, k, objs[..|objs| - 1])
  {
  }

  /**
   * The columns `join` selects are the ones the row materialiser reads
   * back: the alias of a joined column parses to that join and column, and
   * is a multiple key exactly for a multiple child relationship.
   */
  lemma {:induction false} AliasParses(rel: Relation, joinName: string, column: string)
    requires '$' !in joinName && ((rel.child && rel.multiple) || joinName != "")
    ensures Rows.InfoOf(AliasFor(rel, joinName, column)) == Some(Rows.KeyInfo(joinName, column, rel.child && rel.multiple))
  {
    Rows.KeyForParses(rel.child && rel.multiple, joinName, column);
  }
}
